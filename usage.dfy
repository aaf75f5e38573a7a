/**
 * `command_usage` and `track_command`: a nested map from user to command
 * name to invocation count, with both levels created on first use and no
 * restriction on the command name.
 */
module Usage {
  import opened Common

  type Usage = map<UserId, map<string, nat>>

  /** `command_usage.get(u, {}).get(c, 0)`: an absent entry counts as 0. */
  function CountOf(usage: Usage, u: UserId, c: string): nat
  {
    if u in usage && c in usage[u] then usage[u][c] else 0
  }

  /** What `/cmdstats` reads: `command_usage.get(u, {})`. */
  function StatsOf(usage: Usage, u: UserId): (r: map<string, nat>)
    ensures forall c :: c in r ==> r[c] == CountOf(usage, u, c)
    ensures forall c :: c !in r ==> CountOf(usage, u, c) == 0
    ensures WellFormed(usage) ==> forall c :: c in r ==> r[c] >= 1
  {
    if u in usage then usage[u] else map[]
  }

  /** Entries exist only once something was recorded: no empty user map, no zero count. */
  ghost predicate WellFormed(usage: Usage)
  {
    forall u :: u in usage ==> usage[u] != map[] && forall c :: c in usage[u] ==> usage[u][c] >= 1
  }

  /** The new `command_usage` after `track_command(u, c)`. */
  function Record(usage: Usage, u: UserId, c: string): (r: Usage)
    ensures CountOf(r, u, c) == CountOf(usage, u, c) + 1
    ensures forall v, d :: v != u || d != c ==> CountOf(r, v, d) == CountOf(usage, v, d)
    ensures r.Keys == usage.Keys + {u}
    ensures StatsOf(r, u).Keys == StatsOf(usage, u).Keys + {c}
    ensures WellFormed(usage) ==> WellFormed(r)
  {
    var inner := if u in usage then usage[u] else map[];
    usage[u := inner[c := CountOf(usage, u, c) + 1]]
  }

  /** `track_command` applied to every (user, command) pair of a log, in order. */
  function RecordAll(usage: Usage, log: seq<(UserId, string)>): Usage
    decreases log
  {
    if log == [] then usage else RecordAll(Record(usage, log[0].0, log[0].1), log[1..])
  }

  function Occurrences(log: seq<(UserId, string)>, u: UserId, c: string): nat
  {
    if log == [] then 0 else (if log[0] == (u, c) then 1 else 0) + Occurrences(log[1..], u, c)
  }

  /** Every count is its starting value plus the number of times the pair was tracked. */
  lemma {:induction false} RecordAllCounts(usage: Usage, log: seq<(UserId, string)>, u: UserId, c: string)
    ensures CountOf(RecordAll(usage, log), u, c) == CountOf(usage, u, c) + Occurrences(log, u, c)
    decreases log
  {
    if log != [] {
      RecordAllCounts(Record(usage, log[0].0, log[0].1), log[1..], u, c);
    }
  }

  /** Counts only grow: no sequence of tracked commands lowers any count. */
  lemma RecordAllMonotone(usage: Usage, log: seq<(UserId, string)>, u: UserId, c: string)
    ensures CountOf(RecordAll(usage, log), u, c) >= CountOf(usage, u, c)
  {
    RecordAllCounts(usage, log, u, c);
  }

  /** Tracking a command name never seen before gives it a count of 1. */
  lemma RecordUnseenName(usage: Usage, u: UserId)
    requires u !in usage
    ensures StatsOf(Record(usage, u, "foo"), u) == map["foo" := 1]
  {
  }
}
