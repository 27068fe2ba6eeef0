/** The pure rules the session applies (src/game/engine.ts): the ranked
    leaderboard, the anecdote counter, the falling gifts and gremlins, and the
    score of a boss stomp. The session object that applies them is in
    engine.dfy. */
module EngineRules {
  import opened Constants
  import opened Geometry
  import opened Seqs
  import opened Players
  import opened Particles

  // ---------------------------------------------------------------- leaderboard

  datatype Entry = Entry(score: int, ts: int)

  const BoardSize: nat := 5

  /** a may stand before b: the higher score first, then the earlier timestamp
      (the comparator `b.score - a.score || a.ts - b.ts`). */
  predicate Before(a: Entry, b: Entry) {
    a.score > b.score || (a.score == b.score && a.ts <= b.ts)
  }

  predicate Ranked(s: seq<Entry>) {
    forall i, j :: 0 <= i < j < |s| ==> Before(s[i], s[j])
  }

  /** Insertion into a list: before the first entry the new one may precede. */
  function InsertRanked(e: Entry, s: seq<Entry>): seq<Entry> {
    if s == [] then [e]
    else if Before(e, s[0]) then [e] + s
    else [s[0]] + InsertRanked(e, s[1..])
  }

  /** Insertion adds the entry and loses nothing. */
  lemma {:induction false} InsertRankedPermutes(e: Entry, s: seq<Entry>)
    ensures multiset(InsertRanked(e, s)) == multiset(s) + multiset{e}
    decreases |s|
  {
    if s != [] && !Before(e, s[0]) {
      InsertRankedPermutes(e, s[1..]);
      assert s == [s[0]] + s[1..];
    }
  }

  lemma {:induction false} InsertKeepsRanked(e: Entry, s: seq<Entry>)
    requires Ranked(s)
    ensures Ranked(InsertRanked(e, s))
    decreases |s|
  {
    if s != [] {
      if Before(e, s[0]) {
        forall k | 0 <= k < |s|
          ensures Before(e, s[k])
        {
          assert k == 0 || Before(s[0], s[k]);
        }
        ConsRanked(e, s);
      } else {
        var tail := s[1..];
        var rest := InsertRanked(e, tail);
        InsertKeepsRanked(e, tail);
        InsertRankedPermutes(e, tail);
        forall k | 0 <= k < |rest|
          ensures Before(s[0], rest[k])
        {
          var x := rest[k];
          assert x in multiset(rest);
          if x != e {
            assert x in multiset(tail);
            var m :| 0 <= m < |tail| && tail[m] == x;
            assert s[m + 1] == x;
          }
        }
        ConsRanked(s[0], rest);
      }
    }
  }

  /** An entry that ranks before every entry of a ranked list can head it. */
  lemma ConsRanked(x: Entry, r: seq<Entry>)
    requires Ranked(r)
    requires forall k :: 0 <= k < |r| ==> Before(x, r[k])
    ensures Ranked([x] + r)
  {
    var t := [x] + r;
    forall i, j | 0 <= i < j < |t|
      ensures Before(t[i], t[j])
    {
      assert t[j] == r[j - 1];
      if i > 0 {
        assert t[i] == r[i - 1];
      }
    }
  }

  /** The array sort of the leaderboard, as an insertion sort. */
  function Sort(s: seq<Entry>): seq<Entry> {
    if s == [] then []
    else InsertRanked(s[|s| - 1], Sort(s[..|s| - 1]))
  }

  /** The sort ranks its input and keeps exactly its entries. */
  lemma {:induction false} SortRanksAndPermutes(s: seq<Entry>)
    ensures Ranked(Sort(s)) && multiset(Sort(s)) == multiset(s)
    decreases |s|
  {
    if s != [] {
      var init, last := s[..|s| - 1], s[|s| - 1];
      assert s == init + [last];
      SortRanksAndPermutes(init);
      InsertKeepsRanked(last, Sort(init));
      InsertRankedPermutes(last, Sort(init));
    }
  }

  /** `updateLeaderboard` on the list: push, sort, keep the first five. */
  function Inserted(board: seq<Entry>, e: Entry): seq<Entry> {
    var s := Sort(board + [e]);
    if |s| > BoardSize then s[..BoardSize] else s
  }

  /** The comparator ties only equal entries, so a ranked ordering of a
      multiset is unique: every correct sort yields the same list. */
  lemma {:induction false} RankedUnique(a: seq<Entry>, b: seq<Entry>)
    requires Ranked(a) && Ranked(b) && multiset(a) == multiset(b)
    ensures a == b
    decreases |a|
  {
    assert |a| == |multiset(a)| == |multiset(b)| == |b|;
    if a != [] {
      RankedHeadsAgree(a, b);
      SplitHead(a);
      SplitHead(b);
      SameTails(multiset{a[0]}, multiset(a[1..]), multiset(b[1..]));
      RankedUnique(a[1..], b[1..]);
      assert a == [a[0]] + a[1..] && b == [b[0]] + b[1..];
    }
  }

  /** Two ranked orderings of one non-empty multiset start with the same entry. */
  lemma RankedHeadsAgree(a: seq<Entry>, b: seq<Entry>)
    requires Ranked(a) && Ranked(b) && multiset(a) == multiset(b) && a != [] && b != []
    ensures a[0] == b[0]
  {
    assert a[0] in multiset(b);
    var j :| 0 <= j < |b| && b[j] == a[0];
    assert b[0] in multiset(a);
    var i :| 0 <= i < |a| && a[i] == b[0];
    assert j == 0 || Before(b[0], b[j]);
    assert i == 0 || Before(a[0], a[i]);
  }

  lemma SplitHead(a: seq<Entry>)
    requires a != []
    ensures multiset(a) == multiset{a[0]} + multiset(a[1..])
  {
    assert a == [a[0]] + a[1..];
  }

  lemma SameTails(h: multiset<Entry>, x: multiset<Entry>, y: multiset<Entry>)
    requires h + x == h + y
    ensures x == y
  {
    forall e
      ensures x[e] == y[e]
    {
      assert (h + x)[e] == h[e] + x[e];
      assert (h + y)[e] == h[e] + y[e];
    }
  }

  /** After an insert the board is ranked, holds min(old + 1, 5) entries drawn
      from the old board and the new entry, and every entry it drops ranks
      after every entry it keeps. This holds of any old board, even one loaded
      from storage unsorted and longer than five. */
  lemma LeaderboardInsert(board: seq<Entry>, e: Entry)
    ensures var r := Inserted(board, e);
      && Ranked(r)
      && |r| == (if |board| + 1 < BoardSize then |board| + 1 else BoardSize)
      && multiset(r) <= multiset(board + [e])
      && forall x, y :: x in r && y in multiset(board + [e]) - multiset(r) ==> Before(x, y)
  {
    var s := Sort(board + [e]);
    SortRanksAndPermutes(board + [e]);
    assert |s| == |multiset(s)| == |board + [e]|;
    var k := if |s| > BoardSize then BoardSize else |s|;
    assert Inserted(board, e) == s[..k];
    RankedPrefix(s, k);
  }

  /** A prefix of a ranked list is ranked, and each entry it keeps ranks
      before each entry it cuts. */
  lemma RankedPrefix(s: seq<Entry>, k: nat)
    requires Ranked(s) && k <= |s|
    ensures Ranked(s[..k])
    ensures multiset(s[..k]) <= multiset(s)
    ensures forall x, y :: x in s[..k] && y in multiset(s) - multiset(s[..k]) ==> Before(x, y)
  {
    var r := s[..k];
    assert s == r + s[k..];
    assert multiset(s) == multiset(r) + multiset(s[k..]);
    forall x, y | x in r && y in multiset(s) - multiset(r)
      ensures Before(x, y)
    {
      assert y in multiset(s[k..]);
      var i :| 0 <= i < k && r[i] == x;
      var j :| 0 <= j < |s| - k && s[k..][j] == y;
      assert s[i] == x && s[k + j] == y;
    }
  }

  /** The worked example: scores 5, 20 and 5 (the first 5 earlier than the
      second) end up as 20, then the earlier 5, then the later 5. */
  lemma LeaderboardExample(t1: int, t2: int, t3: int)
    requires t1 < t3
    ensures Inserted(Inserted(Inserted([], Entry(5, t1)), Entry(20, t2)), Entry(5, t3))
            == [Entry(20, t2), Entry(5, t1), Entry(5, t3)]
  {
    var a, b, c := Entry(5, t1), Entry(20, t2), Entry(5, t3);
    ExampleFirst(a);
    ExampleSecond(a, b);
    ExampleThird(a, b, c);
  }

  lemma ExampleFirst(a: Entry)
    ensures Inserted([], a) == [a]
  {
    assert [] + [a] == [a];
    assert [a][..0] == [];
    assert Sort([a]) == InsertRanked(a, []);
  }

  lemma ExampleSecond(a: Entry, b: Entry)
    requires b.score > a.score
    ensures Inserted([a], b) == [b, a]
  {
    assert [a][..0] == [];
    assert [a, b][..1] == [a];
    assert Sort([a]) == [a];
    assert Sort([a, b]) == InsertRanked(b, [a]);
  }

  lemma ExampleThird(a: Entry, b: Entry, c: Entry)
    requires b.score > a.score && a.score == c.score && a.ts < c.ts
    ensures Inserted([b, a], c) == [b, a, c]
  {
    assert [b][..0] == [];
    assert [b, a][..1] == [b];
    assert Sort([b]) == [b];
    assert InsertRanked(a, [b]) == [b] + InsertRanked(a, []);
    assert Sort([b, a]) == [b, a];
    assert [b, a, c][..2] == [b, a];
    assert InsertRanked(c, [a]) == [a] + InsertRanked(c, []);
    assert InsertRanked(c, [b, a]) == [b] + InsertRanked(c, [a]);
    assert Sort([b, a, c]) == InsertRanked(c, [b, a]);
  }

  // ---------------------------------------------------------------- anecdotes

  const Thresholds: seq<int> := [10, 20, 30, 40, 50, 60]

  /** How many of the thresholds the score has reached. */
  function CountReached(ts: seq<int>, score: int): nat {
    if ts == [] then 0
    else CountReached(ts[..|ts| - 1], score) + (if score >= ts[|ts| - 1] then 1 else 0)
  }

  function Unlocked(score: int): nat {
    CountReached(Thresholds, score)
  }

  /** One anecdote per ten points, none below 10 and all six from 60 on. */
  lemma UnlockedClosedForm(score: int)
    ensures Unlocked(score) == if score < 10 then 0 else if score >= 60 then 6 else score / 10
  {
    var t := Thresholds;
    assert t[..5] == [10, 20, 30, 40, 50];
    assert [10, 20, 30, 40, 50][..4] == [10, 20, 30, 40];
    assert [10, 20, 30, 40][..3] == [10, 20, 30];
    assert [10, 20, 30][..2] == [10, 20];
    assert [10, 20][..1] == [10];
    assert [10][..0] == [];
    assert CountReached([10], score) == (if score >= 10 then 1 else 0);
    assert CountReached([10, 20], score) == CountReached([10], score) + (if score >= 20 then 1 else 0);
    assert CountReached([10, 20, 30], score) == CountReached([10, 20], score) + (if score >= 30 then 1 else 0);
    assert CountReached([10, 20, 30, 40], score) == CountReached([10, 20, 30], score) + (if score >= 40 then 1 else 0);
    assert CountReached([10, 20, 30, 40, 50], score) == CountReached([10, 20, 30, 40], score) + (if score >= 50 then 1 else 0);
    assert CountReached(t, score) == CountReached([10, 20, 30, 40, 50], score) + (if score >= 60 then 1 else 0);
  }

  /** The counter is within 0..6 and never decreases as the score grows. */
  lemma UnlockedMonotone(s1: int, s2: int)
    requires s1 <= s2
    ensures 0 <= Unlocked(s1) <= Unlocked(s2) <= |Thresholds|
  {
    UnlockedClosedForm(s1);
    UnlockedClosedForm(s2);
  }

  // ---------------------------------------------------------------- gifts and gremlins

  /** A gift or a gremlin: both fall straight down at their own speed. */
  datatype Faller = Faller(x: real, y: real, w: real, h: real, vy: real)

  /** `spawnGift` from its two Math.random draws. */
  function NewGift(r1: Unit, r2: Unit): (g: Faller)
    ensures 20.0 <= g.x && g.x + g.w < LogicWidth && g.y + g.h < 0.0 && 2.0 <= g.vy < 3.0
  {
    Faller(20.0 + r1 * (LogicWidth - 40.0), -20.0, 18.0, 18.0, 2.0 + r2)
  }

  /** `spawnGremlin` from its two Math.random draws. */
  function NewGremlin(r1: Unit, r2: Unit): (g: Faller)
    ensures 20.0 <= g.x && g.x + g.w < LogicWidth && g.y + g.h < 0.0 && 3.4 <= g.vy < 5.2
  {
    Faller(20.0 + r1 * (LogicWidth - 60.0), -40.0, 30.0, 32.0, 3.4 + r2 * 1.8)
  }

  function Fall(fs: seq<Faller>, dt: real): seq<Faller> {
    Map(fs, (f: Faller) => f.(y := f.y + f.vy * dt))
  }

  /** The player touches a gift or a gremlin: `playerCollidesWith` on its box
      (the gremlin loop spells out the same `rectsOverlap` call). */
  predicate Touches(p: PlayerState, f: Faller) {
    CollidesWith(p, f.x, f.y, f.w, f.h)
  }

  /** A gift is kept while its top is above 40 units below the arena floor. */
  predicate OnScreen(g: Faller) {
    g.y < LogicHeight + 40.0
  }

  /** The number of gifts the player picks up. */
  function CaughtCount(gs: seq<Faller>, p: PlayerState): nat {
    if gs == [] then 0
    else CaughtCount(gs[..|gs| - 1], p) + (if Touches(p, gs[|gs| - 1]) then 1 else 0)
  }

  /** The gifts the filter keeps: untouched and still on screen, in order. */
  function KeptGifts(gs: seq<Faller>, p: PlayerState): seq<Faller> {
    if gs == [] then []
    else
      var g := gs[|gs| - 1];
      KeptGifts(gs[..|gs| - 1], p) + (if !Touches(p, g) && OnScreen(g) then [g] else [])
  }

  /** The gifts that fall out unpicked. */
  function LostCount(gs: seq<Faller>, p: PlayerState): nat {
    if gs == [] then 0
    else
      var g := gs[|gs| - 1];
      LostCount(gs[..|gs| - 1], p) + (if !Touches(p, g) && !OnScreen(g) then 1 else 0)
  }

  /** Every gift is either picked up (one point each), kept, or lost; none is
      counted twice. */
  lemma {:induction false} GiftsAccounted(gs: seq<Faller>, p: PlayerState)
    ensures CaughtCount(gs, p) + |KeptGifts(gs, p)| + LostCount(gs, p) == |gs|
  {
    if gs != [] {
      GiftsAccounted(gs[..|gs| - 1], p);
    }
  }

  /** A gift stays iff the player does not touch it and it is still on screen;
      no gift is picked up iff none touches the player. */
  lemma {:induction false} KeptGiftsMembers(gs: seq<Faller>, p: PlayerState)
    ensures forall g :: g in KeptGifts(gs, p) <==> g in gs && !Touches(p, g) && OnScreen(g)
    ensures CaughtCount(gs, p) == 0 <==> forall g :: g in gs ==> !Touches(p, g)
  {
    if gs != [] {
      var init := gs[..|gs| - 1];
      KeptGiftsMembers(init, p);
      assert gs == init + [gs[|gs| - 1]];
    }
  }

  predicate AnyTouches(p: PlayerState, gs: seq<Faller>) {
    exists i :: 0 <= i < |gs| && Touches(p, gs[i])
  }

  // ---------------------------------------------------------------- boss stomps

  /** The part of the session a stomp changes: the boss's hp, the score and
      the boss-defeated flag. */
  datatype Tally = Tally(hp: int, score: int, defeated: bool)

  /** The `onHit` callback: one hp less and 5 points; reaching hp 0 defeats the
      boss for 30 points more. */
  function Hit(t: Tally): Tally {
    var hp := t.hp - 1;
    Tally(hp, t.score + 5 + (if hp <= 0 then 30 else 0), t.defeated || hp <= 0)
  }

  /** n stomps on one boss instance; a defeated boss is inactive and cannot be stomped. */
  function Stomps(t: Tally, n: nat): Tally
    decreases n
  {
    if n == 0 || t.hp <= 0 then t else Stomps(Hit(t), n - 1)
  }

  /** The killing stomp is worth 35. */
  lemma KillingStomp(score: int, defeated: bool)
    ensures Hit(Tally(1, score, defeated)) == Tally(0, score + 35, true)
  {
  }

  /** A boss with hp h >= 1 loses exactly one hp per stomp and is never taken
      below 0; after n < h stomps it has earned 5n, and from the h-th on it is
      defeated with 5h + 30 earned: the 30 is paid once per boss instance. */
  lemma {:induction false} StompsOnOneBoss(hp: int, score: int, n: nat)
    requires hp >= 1
    ensures n < hp ==> Stomps(Tally(hp, score, false), n) == Tally(hp - n, score + 5 * n, false)
    ensures n >= hp ==> Stomps(Tally(hp, score, false), n) == Tally(0, score + 5 * hp + 30, true)
  {
    if n > 0 {
      if hp == 1 {
        assert Hit(Tally(1, score, false)) == Tally(0, score + 35, true);
      } else {
        StompsOnOneBoss(hp - 1, score + 5, n - 1);
      }
    }
  }

  /** So a fresh boss (hp 3) yields 45 points in all: 5, 5, then 35. */
  lemma FreshBossWorth45(score: int, n: nat)
    requires n >= 3
    ensures Stomps(Tally(3, score, false), n) == Tally(0, score + 45, true)
  {
    StompsOnOneBoss(3, score, n);
  }
}
