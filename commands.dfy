/**
 * The slash commands (`/kick` … `/leaderboard`) and text commands (`!lock`,
 * `!unlock`, `!say`): which capability each one needs, which arguments it
 * refuses, whether it reaches the platform, and when it records usage.
 * Platform calls are an oracle that either succeeds or fails.
 */
module Commands {
  import opened Common
  import Duration

  /** The flags checked by the `has_permissions` decorators. */
  datatype Capability =
    | KickMembers
    | BanMembers
    | ModerateMembers
    | ManageMessages
    | ManageChannels
    | Administrator

  datatype Command =
    | Kick(member: UserId)
    | Ban(member: UserId)
    | Timeout(member: UserId, duration: string)
    | Untimeout(member: UserId)
    | Purge(amount: int)
    | CmdStats(target: Option<UserId>)
    | AddXp(member: UserId, amount: int)
    | RemoveXp(member: UserId, amount: int)
    | Leaderboard
    | Lock
    | Unlock
    | Say(text: string)

  const PurgeMin: int := 1
  const PurgeMax: int := 100

  function RequiredCapability(cmd: Command): (r: Option<Capability>)
    ensures r.None? <==> cmd.CmdStats? || cmd.Leaderboard?
    ensures r == Some(Administrator) <==> cmd.AddXp? || cmd.RemoveXp? || cmd.Say?
    ensures r == Some(ModerateMembers) <==> cmd.Timeout? || cmd.Untimeout?
    ensures r == Some(ManageChannels) <==> cmd.Lock? || cmd.Unlock?
    ensures r == Some(KickMembers) <==> cmd.Kick?
    ensures r == Some(BanMembers) <==> cmd.Ban?
    ensures r == Some(ManageMessages) <==> cmd.Purge?
  {
    match cmd
    case Kick(_) => Some(KickMembers)
    case Ban(_) => Some(BanMembers)
    case Timeout(_, _) => Some(ModerateMembers)
    case Untimeout(_) => Some(ModerateMembers)
    case Purge(_) => Some(ManageMessages)
    case CmdStats(_) => None
    case AddXp(_, _) => Some(Administrator)
    case RemoveXp(_, _) => Some(Administrator)
    case Leaderboard => None
    case Lock => Some(ManageChannels)
    case Unlock => Some(ManageChannels)
    case Say(_) => Some(Administrator)
  }

  predicate Permitted(cmd: Command, perms: set<Capability>)
  {
    RequiredCapability(cmd).None? || RequiredCapability(cmd).value in perms
  }

  /** The argument checks made before anything else happens. */
  predicate ArgumentsValid(cmd: Command)
    ensures !(cmd.Timeout? || cmd.Purge? || cmd.AddXp? || cmd.RemoveXp?) ==> ArgumentsValid(cmd)
    ensures cmd.Purge? ==> (ArgumentsValid(cmd) <==> 1 <= cmd.amount <= 100)
    ensures cmd.AddXp? || cmd.RemoveXp? ==> (ArgumentsValid(cmd) <==> cmd.amount >= 1)
    ensures cmd.Timeout? ==> (ArgumentsValid(cmd) <==> Duration.IsDurationToken(cmd.duration))
  {
    match cmd
    case Timeout(_, d) => Duration.ParseDuration(d).Some?
    case Purge(n) => PurgeMin <= n <= PurgeMax
    case AddXp(_, n) => n > 0
    case RemoveXp(_, n) => n > 0
    case _ => true
  }

  /** The name under which `track_command` records an invocation. */
  function Name(cmd: Command): (r: string)
    ensures |r| >= 3 && forall i :: 0 <= i < |r| ==> 'a' <= r[i] <= 'z'
  {
    match cmd
    case Kick(_) => "kick"
    case Ban(_) => "ban"
    case Timeout(_, _) => "timeout"
    case Untimeout(_) => "untimeout"
    case Purge(_) => "purge"
    case CmdStats(_) => "cmdstats"
    case AddXp(_, _) => "addxp"
    case RemoveXp(_, _) => "removexp"
    case Leaderboard => "leaderboard"
    case Lock => "lock"
    case Unlock => "unlock"
    case Say(_) => "say"
  }

  /** Whether two invocations are of the same command, whatever their arguments. */
  predicate SameKind(a: Command, b: Command)
  {
    && a.Kick? == b.Kick? && a.Ban? == b.Ban? && a.Timeout? == b.Timeout?
    && a.Untimeout? == b.Untimeout? && a.Purge? == b.Purge? && a.CmdStats? == b.CmdStats?
    && a.AddXp? == b.AddXp? && a.RemoveXp? == b.RemoveXp? && a.Leaderboard? == b.Leaderboard?
    && a.Lock? == b.Lock? && a.Unlock? == b.Unlock? && a.Say? == b.Say?
  }

  /** Two invocations share a usage counter exactly when they are of the same command. */
  lemma NamesDistinct(a: Command, b: Command)
    ensures Name(a) == Name(b) <==> SameKind(a, b)
  {
  }

  /** Commands whose platform call is made (kick, ban, timeout, purge, permission change, delete+echo). */
  predicate CallsPlatform(cmd: Command)
  {
    !(cmd.CmdStats? || cmd.Leaderboard? || cmd.AddXp? || cmd.RemoveXp?)
  }

  /** Commands whose platform failure is caught and reported ("❌ Failed to …"); the others let it propagate. */
  predicate CatchesFailure(cmd: Command)
  {
    cmd.Kick? || cmd.Ban? || cmd.Timeout? || cmd.Untimeout?
  }

  /** `timedelta` refuses more than this many days. */
  const MaxDeltaDays: nat := 999999999

  /**
   * Whether `utcnow() + timedelta(seconds=seconds)` can be computed, where
   * `headroom` is the number of whole seconds from the current UTC time to
   * the largest `datetime`; otherwise Python raises `OverflowError`.
   */
  predicate DeadlineRepresentable(seconds: nat, headroom: nat)
  {
    seconds / Duration.SecondsPerDay <= MaxDeltaDays && seconds <= headroom
  }

  /** A `/timeout` whose duration parses but whose end time overflows before `member.timeout` is reached. */
  predicate DeadlineOverflows(cmd: Command, headroom: nat)
  {
    && cmd.Timeout?
    && Duration.ParseDuration(cmd.duration).Some?
    && !DeadlineRepresentable(Duration.ParseDuration(cmd.duration).value, headroom)
  }

  datatype Status =
    | PermissionDenied  // the decorator refused the invoker
    | InvalidArgument   // an argument check replied with an error and returned
    | ActionFailed      // the `try` block raised and the handler reported it
    | Raised            // the platform call raised and nothing in the handler caught it
    | Completed

  /**
   * What one invocation does: its status, whether the platform was called,
   * whether `track_command(invoker, Name(cmd))` ran, and the XP amount
   * passed to `add_xp` for the target member, if any.
   */
  datatype Decision = Decision(status: Status, callsPlatform: bool, records: bool, xpChange: Option<int>)

  function Decide(cmd: Command, perms: set<Capability>, platformOk: bool, headroom: nat): (d: Decision)
    // refusals come first and have no effect at all
    ensures d.status == PermissionDenied <==> !Permitted(cmd, perms)
    ensures d.status == InvalidArgument <==> Permitted(cmd, perms) && !ArgumentsValid(cmd)
    ensures d.status in {PermissionDenied, InvalidArgument} ==>
              !d.callsPlatform && !d.records && d.xpChange.None?
    ensures Permitted(cmd, perms) && ArgumentsValid(cmd) ==>
              d.callsPlatform == (CallsPlatform(cmd) && !DeadlineOverflows(cmd, headroom))
    // a failure inside the `try` is reported or propagated, never recorded
    ensures d.status == ActionFailed <==>
              && Permitted(cmd, perms) && ArgumentsValid(cmd) && CatchesFailure(cmd)
              && (DeadlineOverflows(cmd, headroom) || !platformOk)
    ensures d.status == Raised <==> d.callsPlatform && !platformOk && !CatchesFailure(cmd)
    // kick, ban, timeout and say are recorded only once the platform call succeeded
    ensures cmd.Kick? || cmd.Ban? || cmd.Timeout? || cmd.Say? ==>
              (d.records <==> d.callsPlatform && platformOk)
    // untimeout, purge, lock, unlock and the read-only queries are never recorded
    ensures cmd.Untimeout? || cmd.Purge? || cmd.Lock? || cmd.Unlock? || cmd.CmdStats? || cmd.Leaderboard? ==>
              !d.records
    // addxp and removexp are recorded whenever they pass the checks, whatever the platform does
    ensures cmd.AddXp? || cmd.RemoveXp? ==>
              (d.records <==> Permitted(cmd, perms) && ArgumentsValid(cmd))
    // only addxp and removexp touch XP: +amount and -amount on the target member
    ensures d.xpChange.Some? <==> (cmd.AddXp? || cmd.RemoveXp?) && d.records
    ensures d.xpChange.Some? ==> d.xpChange.value == if cmd.AddXp? then cmd.amount else -cmd.amount
    ensures d.records || d.xpChange.Some? ==> d.status == Completed
  {
    if !Permitted(cmd, perms) then Decision(PermissionDenied, false, false, None)
    else if !ArgumentsValid(cmd) then Decision(InvalidArgument, false, false, None)
    else match cmd
      case Kick(_) => if platformOk then Decision(Completed, true, true, None) else Decision(ActionFailed, true, false, None)
      case Ban(_) => if platformOk then Decision(Completed, true, true, None) else Decision(ActionFailed, true, false, None)
      case Timeout(_, d) =>
        if !DeadlineRepresentable(Duration.ParseDuration(d).value, headroom) then Decision(ActionFailed, false, false, None)
        else if platformOk then Decision(Completed, true, true, None)
        else Decision(ActionFailed, true, false, None)
      case Untimeout(_) => Decision(if platformOk then Completed else ActionFailed, true, false, None)
      case Purge(_) => Decision(if platformOk then Completed else Raised, true, false, None)
      case CmdStats(_) => Decision(Completed, false, false, None)
      case AddXp(_, n) => Decision(Completed, false, true, Some(n))
      case RemoveXp(_, n) => Decision(Completed, false, true, Some(-n))
      case Leaderboard => Decision(Completed, false, false, None)
      case Lock => Decision(if platformOk then Completed else Raised, true, false, None)
      case Unlock => Decision(if platformOk then Completed else Raised, true, false, None)
      case Say(_) => if platformOk then Decision(Completed, true, true, None) else Decision(Raised, true, false, None)
  }

  /** The XP commands do not depend on any platform outcome. */
  lemma XpCommandsIgnorePlatform(cmd: Command, perms: set<Capability>, headroom: nat)
    requires cmd.AddXp? || cmd.RemoveXp?
    ensures Decide(cmd, perms, true, headroom) == Decide(cmd, perms, false, headroom)
  {
  }

  /** A purge of 0 or 150 messages is refused before any deletion; 50 goes through and is not recorded. */
  lemma PurgeExamples(perms: set<Capability>, headroom: nat)
    requires ManageMessages in perms
    ensures Decide(Purge(0), perms, true, headroom) == Decision(InvalidArgument, false, false, None)
    ensures Decide(Purge(150), perms, true, headroom) == Decision(InvalidArgument, false, false, None)
    ensures Decide(Purge(50), perms, true, headroom) == Decision(Completed, true, false, None)
  {
  }

  /** A kick by someone without the kick capability reaches neither the platform nor the usage counts. */
  lemma KickDenied(m: UserId, perms: set<Capability>, platformOk: bool, headroom: nat)
    requires KickMembers !in perms
    ensures Decide(Kick(m), perms, platformOk, headroom) == Decision(PermissionDenied, false, false, None)
  {
  }

  /**
   * A timeout whose end time cannot be represented (for instance `3000000d`
   * from today) fails inside the `try`: reported, with no platform call and
   * no usage record.
   */
  lemma TimeoutOverflowFails(m: UserId, duration: string, perms: set<Capability>, platformOk: bool, headroom: nat)
    requires ModerateMembers in perms
    requires Duration.ParseDuration(duration).Some? && Duration.ParseDuration(duration).value > headroom
    ensures Decide(Timeout(m, duration), perms, platformOk, headroom) == Decision(ActionFailed, false, false, None)
  {
  }

  /** More than 999999999 days overflows `timedelta` itself, whatever the clock says. */
  lemma TimeoutBeyondDeltaFails(m: UserId, days: nat, perms: set<Capability>, platformOk: bool, headroom: nat)
    requires ModerateMembers in perms
    requires days > MaxDeltaDays
    ensures Decide(Timeout(m, Duration.Digits(days) + ['d']), perms, platformOk, headroom)
         == Decision(ActionFailed, false, false, None)
  {
    Duration.ParseRendered(days, 'd');
  }
}
