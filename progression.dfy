/**
 * The XP engine: `user_xp` (with the order in which users first appeared in
 * it), `user_levels`, `add_xp` and `xp_to_next_level`. XP is floored at 0
 * and the stored level is a high-water mark: it is raised when XP crosses a
 * level boundary and never lowered.
 */
module Progression {
  import opened Common

  const XpPerLevel: nat := 500

  /** XP awarded for every message, the default `amount` of `add_xp`. */
  const MessageXp: int := 5

  /** One user's `user_xp.get(u, 0)` and `user_levels.get(u, 0)`. */
  datatype Progress = Progress(xp: nat, level: nat)

  datatype Gained = Gained(after: Progress, levelUp: Option<nat>)

  /** `add_xp` on one user's record: add, clamp at 0, raise the level if `xp // 500` exceeds it. */
  function Gain(p: Progress, amount: int): (r: Gained)
    ensures r.after.xp == Max(0, p.xp + amount)
    ensures r.after.level == Max(p.level, r.after.xp / XpPerLevel)
    ensures r.levelUp.Some? <==> r.after.level > p.level
    ensures r.levelUp.Some? ==> r.levelUp.value == r.after.level >= 1
  {
    var sum := p.xp + amount;
    var xp := if sum < 0 then 0 else sum;
    var newLevel := xp / XpPerLevel;
    if p.level < newLevel then Gained(Progress(xp, newLevel), Some(newLevel))
    else Gained(Progress(xp, p.level), None)
  }

  /** `xp_to_next_level`: XP still missing to reach the level after the stored one. */
  function XpToNext(p: Progress): (r: int)
    ensures r <= XpPerLevel * (p.level + 1)
    ensures p.level >= p.xp / XpPerLevel ==> r >= 1
  {
    (p.level + 1) * XpPerLevel - p.xp
  }

  /** The level is consistent with the XP: never below `xp // 500`. */
  predicate LevelCovers(p: Progress) { p.level >= p.xp / XpPerLevel }

  /** The stored level never drops and always covers the XP after a call. */
  lemma GainKeepsHighWater(p: Progress, amount: int)
    ensures Gain(p, amount).after.level >= p.level
    ensures LevelCovers(Gain(p, amount).after)
  {
  }

  /** Right after a level-up the user needs between 1 and 500 XP more; exactly 500 only on a boundary. */
  lemma XpToNextAfterLevelUp(p: Progress, amount: int)
    requires Gain(p, amount).levelUp.Some?
    ensures 1 <= XpToNext(Gain(p, amount).after) <= XpPerLevel
    ensures XpToNext(Gain(p, amount).after) == XpPerLevel <==> Gain(p, amount).after.xp % XpPerLevel == 0
  {
  }

  /** A user never seen has 500 XP to go. */
  lemma XpToNextFresh()
    ensures XpToNext(Progress(0, 0)) == XpPerLevel
  {
  }

  /** A run of `add_xp` calls on one user. */
  function GainAll(p: Progress, amounts: seq<int>): Progress
    decreases amounts
  {
    if amounts == [] then p else GainAll(Gain(p, amounts[0]).after, amounts[1..])
  }

  function Sum(amounts: seq<int>): int
  {
    if amounts == [] then 0 else amounts[0] + Sum(amounts[1..])
  }

  /** With no negative amount nothing is clamped: XP is the start plus the sum of the amounts. */
  lemma {:induction false} GainAllSums(p: Progress, amounts: seq<int>)
    requires forall i :: 0 <= i < |amounts| ==> amounts[i] >= 0
    ensures GainAll(p, amounts).xp == p.xp + Sum(amounts)
    decreases amounts
  {
    if amounts != [] {
      GainAllSums(Gain(p, amounts[0]).after, amounts[1..]);
    }
  }

  /** Over any run of calls, negative amounts included, the level never decreases and XP never goes negative. */
  lemma {:induction false} GainAllHighWater(p: Progress, amounts: seq<int>)
    requires LevelCovers(p) || amounts != []
    ensures GainAll(p, amounts).level >= p.level
    ensures LevelCovers(GainAll(p, amounts))
    decreases amounts
  {
    if amounts != [] {
      var q := Gain(p, amounts[0]).after;
      GainKeepsHighWater(p, amounts[0]);
      GainAllHighWater(q, amounts[1..]);
    }
  }

  /**
   * The whole XP state: `user_xp` as a map plus its key order (Python dicts
   * iterate in first-insertion order), and `user_levels`.
   */
  datatype XpTable = XpTable(xp: map<UserId, nat>, order: seq<UserId>, levels: map<UserId, nat>)
  {
    ghost predicate Valid()
    {
      && (forall i, j :: 0 <= i < j < |order| ==> order[i] != order[j])
      && (forall u :: u in order <==> u in xp)
      && levels.Keys <= xp.Keys
      && (forall u :: u in levels ==> levels[u] >= 1)
      && (forall u :: u in xp ==> LevelCovers(ProgressOf(u)))
    }

    function ProgressOf(u: UserId): Progress
    {
      Progress(if u in xp then xp[u] else 0, if u in levels then levels[u] else 0)
    }
  }

  function EmptyTable(): (t: XpTable)
    ensures t.Valid()
  {
    XpTable(map[], [], map[])
  }

  datatype XpUpdate = XpUpdate(table: XpTable, levelUp: Option<nat>)

  /** `add_xp(u, amount)` on the whole table. */
  function AddXp(t: XpTable, u: UserId, amount: int): (r: XpUpdate)
    ensures r.table.ProgressOf(u) == Gain(t.ProgressOf(u), amount).after
    ensures r.levelUp == Gain(t.ProgressOf(u), amount).levelUp
    ensures forall v :: v != u ==> r.table.ProgressOf(v) == t.ProgressOf(v)
    ensures r.table.xp.Keys == t.xp.Keys + {u}
    ensures r.table.order == t.order + (if u in t.xp then [] else [u])
    ensures t.Valid() ==> r.table.Valid()
  {
    var g := Gain(t.ProgressOf(u), amount);
    var order := if u in t.xp then t.order else t.order + [u];
    var levels := if g.levelUp.Some? then t.levels[u := g.after.level] else t.levels;
    XpUpdate(XpTable(t.xp[u := g.after.xp], order, levels), g.levelUp)
  }

  /** `xp_to_next_level(u)` on the table. */
  function XpToNextLevel(t: XpTable, u: UserId): (r: int)
    ensures t.Valid() ==> 1 <= r
    ensures u !in t.xp && u !in t.levels ==> r == XpPerLevel
  {
    XpToNext(t.ProgressOf(u))
  }

  /** On the table: right after `add_xp` reports a level-up, `xp_to_next_level` lies in 1..500. */
  lemma AddXpThenXpToNext(t: XpTable, u: UserId, amount: int)
    requires AddXp(t, u, amount).levelUp.Some?
    ensures 1 <= XpToNextLevel(AddXp(t, u, amount).table, u) <= XpPerLevel
  {
    XpToNextAfterLevelUp(t.ProgressOf(u), amount);
  }
}
