/**
 * The statistics panel's paint handler (`MainUI.statisticsPanel_Paint`): the in-game
 * timer, the player's status lines, and the enemy health list, which is filtered and
 * ordered by a policy that depends on the `DebugEnemy` option.
 */
module Statistics {
  import opened Graphics

  /** One enemy slot as the memory provider reports it. How the provider computes the
      percentage and the two messages is not part of this model. */
  datatype EnemyEntry = EnemyEntry(
    slot: int,
    currentHP: int,
    percentage: real,
    isAlive: bool,
    isEmpty: bool)

  // ----- The enemy list policy

  /** Which entries are listed: in debug-enemy mode every non-empty one, otherwise the
      living non-empty ones. */
  predicate Shown(debugEnemy: bool, e: EnemyEntry) {
    if debugEnemy then !e.isEmpty else e.isAlive && !e.isEmpty
  }

  /** The entries the handler lists, in the provider's order. */
  function Filter(debugEnemy: bool, es: seq<EnemyEntry>): (r: seq<EnemyEntry>)
    ensures |r| <= |es|
    ensures forall e | e in r :: e in es && Shown(debugEnemy, e)
  {
    if es == [] then []
    else (if Shown(debugEnemy, es[0]) then [es[0]] else []) + Filter(debugEnemy, es[1..])
  }

  /** `a` may be listed before `b`: in debug-enemy mode by ascending slot, otherwise by
      ascending percentage, ties broken by descending hit points. */
  predicate Before(debugEnemy: bool, a: EnemyEntry, b: EnemyEntry) {
    if debugEnemy then a.slot <= b.slot
    else a.percentage < b.percentage || (a.percentage == b.percentage && a.currentHP >= b.currentHP)
  }

  /** `a` and `b` have the same sort key. */
  predicate SameKey(debugEnemy: bool, a: EnemyEntry, b: EnemyEntry) {
    Before(debugEnemy, a, b) && Before(debugEnemy, b, a)
  }

  predicate Sorted(debugEnemy: bool, s: seq<EnemyEntry>) {
    forall i, j | 0 <= i < j < |s| :: Before(debugEnemy, s[i], s[j])
  }

  /** Inserts `x`, which came before every element of `s`, ahead of the first element
      it may precede, so that it stays ahead of the elements with its key. */
  function Insert(debugEnemy: bool, x: EnemyEntry, s: seq<EnemyEntry>): (r: seq<EnemyEntry>)
    ensures multiset(r) == multiset(s) + multiset{x}
  {
    if s == [] then [x]
    else if Before(debugEnemy, x, s[0]) then [x] + s
    else
      assert s == [s[0]] + s[1..];
      [s[0]] + Insert(debugEnemy, x, s[1..])
  }

  /** A stable sort, as the ordering of the list the handler builds. */
  function SortEnemies(debugEnemy: bool, s: seq<EnemyEntry>): (r: seq<EnemyEntry>)
    ensures multiset(r) == multiset(s)
  {
    if s == [] then []
    else
      assert s == [s[0]] + s[1..];
      Insert(debugEnemy, s[0], SortEnemies(debugEnemy, s[1..]))
  }

  /** The list of enemies the handler draws, in drawing order. */
  function EnemyList(debugEnemy: bool, enemies: seq<EnemyEntry>): (r: seq<EnemyEntry>)
    ensures |r| <= |enemies|
    ensures forall e | e in r :: e in enemies && Shown(debugEnemy, e)
  {
    var f := Filter(debugEnemy, enemies);
    var r := SortEnemies(debugEnemy, f);
    assert forall e | e in r :: e in multiset(f);
    assert |r| == |multiset(r)| == |multiset(f)| == |f|;
    r
  }

  lemma BeforeTotal(debugEnemy: bool, a: EnemyEntry, b: EnemyEntry)
    ensures Before(debugEnemy, a, b) || Before(debugEnemy, b, a)
  {
  }

  lemma BeforeTransitive(debugEnemy: bool, a: EnemyEntry, b: EnemyEntry, c: EnemyEntry)
    requires Before(debugEnemy, a, b) && Before(debugEnemy, b, c)
    ensures Before(debugEnemy, a, c)
  {
  }

  lemma {:induction false} InsertSorted(debugEnemy: bool, x: EnemyEntry, s: seq<EnemyEntry>)
    requires Sorted(debugEnemy, s)
    ensures Sorted(debugEnemy, Insert(debugEnemy, x, s))
  {
    if s != [] && !Before(debugEnemy, x, s[0]) {
      InsertSorted(debugEnemy, x, s[1..]);
      var r := Insert(debugEnemy, x, s);
      var t := Insert(debugEnemy, x, s[1..]);
      assert r == [s[0]] + t;
      BeforeTotal(debugEnemy, x, s[0]);
      forall j | 0 < j < |r|
        ensures Before(debugEnemy, s[0], r[j])
      {
        assert r[j] == t[j - 1];
        assert r[j] in multiset(t);
        assert r[j] == x || r[j] in multiset(s[1..]);
        if r[j] != x {
          var k :| 0 <= k < |s[1..]| && s[1..][k] == r[j];
          assert s[k + 1] == r[j];
        }
      }
    }
  }

  /** The list is ordered by the mode's key. */
  lemma {:induction false} SortedBy(debugEnemy: bool, s: seq<EnemyEntry>)
    ensures Sorted(debugEnemy, SortEnemies(debugEnemy, s))
  {
    if s != [] {
      SortedBy(debugEnemy, s[1..]);
      InsertSorted(debugEnemy, s[0], SortEnemies(debugEnemy, s[1..]));
    }
  }

  /** The entries of `s` with the key of `k`, in order. */
  function WithKey(debugEnemy: bool, k: EnemyEntry, s: seq<EnemyEntry>): seq<EnemyEntry> {
    if s == [] then []
    else (if SameKey(debugEnemy, s[0], k) then [s[0]] else []) + WithKey(debugEnemy, k, s[1..])
  }

  lemma WithKeyCons(debugEnemy: bool, k: EnemyEntry, y: EnemyEntry, t: seq<EnemyEntry>)
    ensures WithKey(debugEnemy, k, [y] + t) == (if SameKey(debugEnemy, y, k) then [y] else []) + WithKey(debugEnemy, k, t)
  {
    assert ([y] + t)[1..] == t;
  }

  /** Two entries with the key of `k` may be listed in either order. */
  lemma SameKeyOrdered(debugEnemy: bool, x: EnemyEntry, y: EnemyEntry, k: EnemyEntry)
    requires SameKey(debugEnemy, x, k) && SameKey(debugEnemy, y, k)
    ensures Before(debugEnemy, x, y)
  {
    BeforeTransitive(debugEnemy, x, k, y);
  }

  lemma {:induction false} InsertStable(debugEnemy: bool, k: EnemyEntry, x: EnemyEntry, s: seq<EnemyEntry>)
    ensures WithKey(debugEnemy, k, Insert(debugEnemy, x, s))
         == (if SameKey(debugEnemy, x, k) then [x] else []) + WithKey(debugEnemy, k, s)
  {
    if s == [] {
      WithKeyCons(debugEnemy, k, x, []);
    } else if Before(debugEnemy, x, s[0]) {
      WithKeyCons(debugEnemy, k, x, s);
    } else {
      var y, t := s[0], s[1..];
      assert s == [y] + t;
      assert Insert(debugEnemy, x, s) == [y] + Insert(debugEnemy, x, t);
      InsertStable(debugEnemy, k, x, t);
      InsertStableStep(debugEnemy, k, x, y, t, Insert(debugEnemy, x, t));
    }
  }

  /** An entry that `x` may not precede stays ahead of `x`, and of every entry with
      the key of `x`. */
  lemma InsertStableStep(debugEnemy: bool, k: EnemyEntry, x: EnemyEntry, y: EnemyEntry, t: seq<EnemyEntry>, rest: seq<EnemyEntry>)
    requires !Before(debugEnemy, x, y)
    requires WithKey(debugEnemy, k, rest) == (if SameKey(debugEnemy, x, k) then [x] else []) + WithKey(debugEnemy, k, t)
    ensures WithKey(debugEnemy, k, [y] + rest)
         == (if SameKey(debugEnemy, x, k) then [x] else []) + WithKey(debugEnemy, k, [y] + t)
  {
    WithKeyCons(debugEnemy, k, y, rest);
    WithKeyCons(debugEnemy, k, y, t);
    if SameKey(debugEnemy, x, k) && SameKey(debugEnemy, y, k) {
      SameKeyOrdered(debugEnemy, x, y, k);
      assert false;
    }
  }

  /** The sort is stable: the entries sharing any one key keep the provider's order. */
  lemma {:induction false} SortStable(debugEnemy: bool, k: EnemyEntry, s: seq<EnemyEntry>)
    ensures WithKey(debugEnemy, k, SortEnemies(debugEnemy, s)) == WithKey(debugEnemy, k, s)
  {
    if s != [] {
      SortStable(debugEnemy, k, s[1..]);
      InsertStable(debugEnemy, k, s[0], SortEnemies(debugEnemy, s[1..]));
    }
  }

  lemma {:induction false} FilterKeeps(debugEnemy: bool, es: seq<EnemyEntry>)
    ensures forall e :: e in Filter(debugEnemy, es) <==> e in es && Shown(debugEnemy, e)
    ensures forall e | Shown(debugEnemy, e) :: multiset(Filter(debugEnemy, es))[e] == multiset(es)[e]
  {
    if es != [] {
      FilterKeeps(debugEnemy, es[1..]);
      assert es == [es[0]] + es[1..];
    }
  }

  /** The listed enemies are exactly the shown entries, each as often as the provider
      reports it, ordered by the mode's key, with equal keys in the provider's order. */
  lemma EnemyListPolicy(debugEnemy: bool, enemies: seq<EnemyEntry>, k: EnemyEntry)
    ensures forall e :: e in EnemyList(debugEnemy, enemies) <==> e in enemies && Shown(debugEnemy, e)
    ensures forall e | Shown(debugEnemy, e) :: multiset(EnemyList(debugEnemy, enemies))[e] == multiset(enemies)[e]
    ensures Sorted(debugEnemy, EnemyList(debugEnemy, enemies))
    ensures WithKey(debugEnemy, k, EnemyList(debugEnemy, enemies)) == WithKey(debugEnemy, k, Filter(debugEnemy, enemies))
  {
    var f := Filter(debugEnemy, enemies);
    FilterKeeps(debugEnemy, enemies);
    SortedBy(debugEnemy, f);
    SortStable(debugEnemy, k, f);
    forall e
      ensures e in EnemyList(debugEnemy, enemies) <==> e in f
    {
      assert e in EnemyList(debugEnemy, enemies) <==> e in multiset(EnemyList(debugEnemy, enemies));
    }
  }

  // ----- The panel's layout

  /** The panel's fixed text lines. */
  datatype StatLine = Timer | RawTimer | VersionCode | ProcessName | ProcessId | Status | Saves | Retry | EnemyHeader

  /** A text line drawn with `brush` at (`x`, `y`). */
  datatype TextAt = TextAt(line: StatLine, brush: Brush, x: int, y: int)

  /** One enemy's row: its health bar, 176 by 15 pixels, and its message, drawn at the
      bar's corner, or two pixels right and one down for the debug message. */
  datatype EnemyRow = EnemyRow(enemy: EnemyEntry, bar: Rect, textX: int, textY: int, debugMessage: bool)

  const RowGap := 15
  const BarWidth := 176

  /** The vertical offset below the status lines: the debug lines push everything 56 lower. */
  function StatusBottom(debug: bool): int {
    (if debug then 56 else 0) + 39
  }

  /** Paints the statistics panel: the fixed lines, then, unless enemy health is hidden,
      the header and one row per listed enemy. */
  method PaintStatistics(debug: bool, noEnemyHealth: bool, debugEnemy: bool, enemies: seq<EnemyEntry>)
    returns (texts: seq<TextAt>, rows: seq<EnemyRow>)
    ensures |texts| == (if debug then 5 else 1) + 3 + (if noEnemyHealth then 0 else 1)
    ensures texts[0] == TextAt(Timer, White, 0, 0)
    ensures debug ==> texts[1..5] == [TextAt(RawTimer, Gray, 0, 25), TextAt(VersionCode, Gray, 0, 38),
                                      TextAt(ProcessName, Gray, 0, 51), TextAt(ProcessId, Gray, 0, 64)]
    ensures var s := if debug then 5 else 1;
      && texts[s..s + 3] == [TextAt(Status, White, 0, StatusBottom(debug) - 14),
                             TextAt(Saves, White, 0, StatusBottom(debug) - 1),
                             TextAt(Retry, White, 0, StatusBottom(debug) + 12)]
      && (!noEnemyHealth ==> texts[s + 3] == TextAt(EnemyHeader, Red, 0, StatusBottom(debug) + 2 * RowGap))
    ensures noEnemyHealth ==> rows == []
    ensures !noEnemyHealth ==> |rows| == |EnemyList(debugEnemy, enemies)|
    ensures !noEnemyHealth ==> forall k | 0 <= k < |rows| ::
      rows[k] == RowAt(StatusBottom(debug), debugEnemy, k, EnemyList(debugEnemy, enemies)[k])
  {
    var heightGap := RowGap;
    var heightOffset := 0;
    var i := 1;
    texts := [TextAt(Timer, White, 0, 0)];
    if debug {
      texts := texts + [TextAt(RawTimer, Gray, 0, 25), TextAt(VersionCode, Gray, 0, 38),
                        TextAt(ProcessName, Gray, 0, 51), TextAt(ProcessId, Gray, 0, 64)];
      heightOffset := 56;
    }
    ghost var opening := texts;
    ghost var status := [TextAt(Status, White, 0, heightOffset + 25), TextAt(Saves, White, 0, heightOffset + 38),
                         TextAt(Retry, White, 0, heightOffset + 51)];
    texts := texts + [TextAt(Status, White, 0, heightOffset + 25), TextAt(Saves, White, 0, heightOffset + 38),
                      TextAt(Retry, White, 0, heightOffset + 51)];
    assert texts[|opening|..|opening| + 3] == status;
    heightOffset := heightOffset + 39;
    rows := [];
    if !noEnemyHealth {
      i := i + 1;
      ghost var fixed := texts;
      texts := texts + [TextAt(EnemyHeader, Red, 0, heightOffset + heightGap * i)];
      assert texts[..|fixed|] == fixed;
      assert texts[|opening|..|opening| + 3] == fixed[|opening|..|opening| + 3];
      var enemyList := EnemyList(debugEnemy, enemies);
      for k := 0 to |enemyList|
        invariant i == k + 2
        invariant |rows| == k
        invariant forall q | 0 <= q < k :: rows[q] == RowAt(heightOffset, debugEnemy, q, enemyList[q])
      {
        var x := 1;
        i := i + 1;
        var y := heightOffset + heightGap * i;
        var row := if debugEnemy then EnemyRow(enemyList[k], Rect(x, y, BarWidth, heightGap), x + 2, y + 1, true)
                   else EnemyRow(enemyList[k], Rect(x, y, BarWidth, heightGap), x, y, false);
        rows := rows + [row];
      }
    }
  }

  /** Where the `k`-th listed enemy (from 0) is drawn: one row gap per line below
      `offset`, after two gaps taken by the status block and the header. */
  function RowAt(offset: int, debugEnemy: bool, k: int, e: EnemyEntry): (r: EnemyRow)
    ensures r.bar == Rect(1, offset + RowGap * (k + 3), BarWidth, RowGap)
    ensures r.debugMessage == debugEnemy
    ensures r.textX == r.bar.x + (if debugEnemy then 2 else 0)
    ensures r.textY == r.bar.y + (if debugEnemy then 1 else 0)
  {
    var y := offset + RowGap * (k + 3);
    EnemyRow(e, Rect(1, y, BarWidth, RowGap), if debugEnemy then 3 else 1, if debugEnemy then y + 1 else y, debugEnemy)
  }

  /** The rows stack without overlap below the header, each one row gap under the last. */
  lemma RowsStack(offset: int, debugEnemy: bool, j: int, k: int, a: EnemyEntry, b: EnemyEntry)
    requires 0 <= j < k
    ensures var top := RowAt(offset, debugEnemy, j, a).bar;
      var bottom := RowAt(offset, debugEnemy, k, b).bar;
      && top.y + top.h <= bottom.y
      && Disjoint(top, bottom)
      && offset + 2 * RowGap + RowGap <= top.y
  {
  }
}
