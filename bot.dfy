/**
 * The bot's module-level state (`command_usage`, `user_xp`, `user_levels`)
 * as one object, with the helpers that update it in place and the event
 * handlers that drive them: `on_message` and the command handlers.
 */
module Bot {
  import opened Common
  import Duration
  import Usage
  import Progression
  import Ranking
  import Triggers
  import opened Commands

  datatype Message = Message(author: UserId, authorIsBot: bool, content: string, mentions: seq<UserId>)

  /** What `on_message` sends for the trigger that fired (formatting left out). */
  datatype Response =
    | NoResponse
    | LevelInfo(user: UserId, level: nat, xp: nat)
    | XpLeftInfo(left: int)
    | CommandListText
    | KeyHintText

  /**
   * `levelUp` is what `add_xp` returned, `response` the trigger answer that
   * was sent, and `forwarded` whether `process_commands` was reached.
   */
  datatype MessageOutcome =
    | Ignored
    | Handled(levelUp: Option<nat>, response: Response, forwarded: bool)

  /** What a command replies with, besides its status (formatting left out). */
  datatype Payload =
    | NoPayload
    | Stats(counts: map<string, nat>)
    | Board(entries: seq<Ranking.Entry>)
    | Deleted(count: nat)
    | XpAdded(levelUp: Option<nat>)
    | Echoed(text: string)

  datatype Reply = Reply(status: Status, platformCalled: bool, payload: Payload)

  /** The response of a fired trigger, read from the XP state after the message's own award. */
  function Respond(t: Triggers.Trigger, msg: Message, table: Progression.XpTable): (r: Response)
    ensures r.NoResponse? <==> t.NoTrigger?
    ensures t.LevelQuery? ==>
      && r.LevelInfo?
      && r.user == (if |msg.mentions| > 0 then msg.mentions[0] else msg.author)
      && (table.Valid() ==> r.level >= r.xp / Progression.XpPerLevel)
    ensures t.XpLeft? && table.Valid() ==> r.XpLeftInfo? && r.left >= 1
  {
    match t
    case LevelQuery =>
      var who := if |msg.mentions| > 0 then msg.mentions[0] else msg.author;
      LevelInfo(who, table.ProgressOf(who).level, table.ProgressOf(who).xp)
    case XpLeft => XpLeftInfo(Progression.XpToNextLevel(table, msg.author))
    case CommandList => CommandListText
    case KeyHint => KeyHintText
    case NoTrigger => NoResponse
  }

  class BotState {
    var commandUsage: Usage.Usage
    var userXp: map<UserId, nat>
    var xpOrder: seq<UserId>   // keys of `user_xp` in insertion order
    var userLevels: map<UserId, nat>

    function Table(): Progression.XpTable
      reads this
    {
      Progression.XpTable(userXp, xpOrder, userLevels)
    }

    ghost predicate Valid()
      reads this
    {
      Table().Valid() && Usage.WellFormed(commandUsage)
    }

    /** `user_xp.items()` in dictionary order. */
    function Standings(): seq<Ranking.Entry>
      reads this
      requires Valid()
    {
      assert forall i :: 0 <= i < |xpOrder| ==> xpOrder[i] in xpOrder;
      Ranking.EntriesOf(xpOrder, userXp)
    }

    constructor ()
      ensures Valid()
      ensures commandUsage == map[] && Table() == Progression.EmptyTable()
    {
      commandUsage := map[];
      userXp := map[];
      xpOrder := [];
      userLevels := map[];
    }

    /** `track_command`: create the user's map if needed, then bump the count. */
    method TrackCommand(user: UserId, name: string)
      requires Valid()
      modifies this
      ensures Valid()
      ensures commandUsage == Usage.Record(old(commandUsage), user, name)
      ensures Table() == old(Table())
    {
      if user !in commandUsage {
        commandUsage := commandUsage[user := map[]];
      }
      var inner := commandUsage[user];
      var count := if name in inner then inner[name] else 0;
      commandUsage := commandUsage[user := inner[name := count + 1]];
    }

    /** `add_xp`: add, floor at 0, and raise the stored level on a level-up. */
    method AddXp(user: UserId, amount: int) returns (levelUp: Option<nat>)
      requires Valid()
      modifies this
      ensures Valid()
      ensures Table() == Progression.AddXp(old(Table()), user, amount).table
      ensures levelUp == Progression.AddXp(old(Table()), user, amount).levelUp
      ensures commandUsage == old(commandUsage)
    {
      ghost var before := Table();
      ghost var g := Progression.Gain(before.ProgressOf(user), amount);
      ghost var after := Progression.AddXp(before, user, amount);
      var xp := (if user in userXp then userXp[user] else 0) + amount;
      if xp < 0 {
        xp := 0;
      }
      if user !in userXp {
        xpOrder := xpOrder + [user];
      }
      userXp := userXp[user := xp];
      var newLevel := xp / Progression.XpPerLevel;
      if (if user in userLevels then userLevels[user] else 0) < newLevel {
        userLevels := userLevels[user := newLevel];
        levelUp := Some(newLevel);
      } else {
        levelUp := None;
      }
      assert userXp == after.table.xp;
      assert userLevels == after.table.levels;
      assert xpOrder == after.table.order;
    }

    /**
     * `on_message`: skip bots, award message XP, answer at most one trigger,
     * forward to text commands. `sendsOk` says whether the channel sends
     * succeed; a failing send raises and ends the handler at that point.
     */
    method OnMessage(msg: Message, botUser: UserId, sendsOk: bool) returns (r: MessageOutcome)
      requires Valid()
      modifies this
      ensures Valid()
      ensures commandUsage == old(commandUsage)
      ensures msg.authorIsBot ==> r == Ignored && Table() == old(Table())
      ensures !msg.authorIsBot ==>
        var award := Progression.AddXp(old(Table()), msg.author, Progression.MessageXp);
        var trigger := Triggers.SelectTrigger(msg.content, botUser in msg.mentions);
        && Table() == award.table
        && r.Handled?
        && r.levelUp == award.levelUp
        && r.response == (if sendsOk then Respond(trigger, msg, award.table) else NoResponse)
        && r.forwarded == (sendsOk || (award.levelUp.None? && trigger.NoTrigger?))
    {
      if msg.authorIsBot {
        return Ignored;
      }
      var levelUp := AddXp(msg.author, Progression.MessageXp);
      if levelUp.Some? && !sendsOk {
        // the congratulation send raised
        return Handled(levelUp, NoResponse, false);
      }
      var content := Triggers.Lower(msg.content);
      var response: Response;
      if Triggers.LevelPrefix <= content {
        var who := if |msg.mentions| > 0 then msg.mentions[0] else msg.author;
        var lvl := if who in userLevels then userLevels[who] else 0;
        var xp := if who in userXp then userXp[who] else 0;
        response := LevelInfo(who, lvl, xp);
      } else if content == Triggers.XpLeftText {
        var xp := if msg.author in userXp then userXp[msg.author] else 0;
        var level := if msg.author in userLevels then userLevels[msg.author] else 0;
        response := XpLeftInfo((level + 1) * Progression.XpPerLevel - xp);
      } else if content == Triggers.CommandsText || botUser in msg.mentions {
        response := CommandListText;
      } else if content == Triggers.KeyText {
        response := KeyHintText;
      } else {
        response := NoResponse;
      }
      if !response.NoResponse? && !sendsOk {
        // the trigger's reply send raised
        return Handled(levelUp, NoResponse, false);
      }
      r := Handled(levelUp, response, true);
    }

    /**
     * One slash or text command by `invoker` holding `perms`. `platformOk`
     * is the outcome of the command's platform call, `deleted` the number
     * of messages the platform reports for a purge, and `headroom` the whole
     * seconds left between the current UTC time and the largest `datetime`.
     */
    method Dispatch(invoker: UserId, perms: set<Capability>, cmd: Command, platformOk: bool, deleted: nat,
                    headroom: nat)
      returns (r: Reply)
      requires Valid()
      modifies this
      ensures Valid()
      ensures var d := Decide(cmd, perms, platformOk, headroom);
        && r.status == d.status
        && r.platformCalled == d.callsPlatform
        && commandUsage == (if d.records then Usage.Record(old(commandUsage), invoker, Name(cmd)) else old(commandUsage))
        && Table() == (if d.xpChange.Some? then Progression.AddXp(old(Table()), cmd.member, d.xpChange.value).table
                       else old(Table()))
      ensures r.status == Completed ==>
        match cmd
        case CmdStats(t) => r.payload == Stats(Usage.StatsOf(commandUsage, if t.Some? then t.value else invoker))
        case Leaderboard => r.payload == Board(Ranking.Leaderboard(Standings()))
        case Purge(_) => r.payload == Deleted(deleted)
        case AddXp(m, n) => r.payload == XpAdded(Progression.AddXp(old(Table()), m, n).levelUp)
        case Say(text) => r.payload == Echoed(text)
        case _ => r.payload == NoPayload
      ensures r.status != Completed ==> r.payload == NoPayload
    {
      if !Permitted(cmd, perms) {
        return Reply(PermissionDenied, false, NoPayload);
      }
      match cmd
      case Kick(_) =>
        if platformOk {
          TrackCommand(invoker, "kick");
          r := Reply(Completed, true, NoPayload);
        } else {
          r := Reply(ActionFailed, true, NoPayload);
        }
      case Ban(_) =>
        if platformOk {
          TrackCommand(invoker, "ban");
          r := Reply(Completed, true, NoPayload);
        } else {
          r := Reply(ActionFailed, true, NoPayload);
        }
      case Timeout(_, duration) =>
        var seconds := Duration.ParseDuration(duration);
        if seconds.None? {
          return Reply(InvalidArgument, false, NoPayload);
        }
        if seconds.value / Duration.SecondsPerDay > MaxDeltaDays || seconds.value > headroom {
          // `timedelta(...)` or `utcnow() + ...` raises OverflowError inside the `try`
          return Reply(ActionFailed, false, NoPayload);
        }
        if platformOk {
          TrackCommand(invoker, "timeout");
          r := Reply(Completed, true, NoPayload);
        } else {
          r := Reply(ActionFailed, true, NoPayload);
        }
      case Untimeout(_) =>
        r := Reply(if platformOk then Completed else ActionFailed, true, NoPayload);
      case Purge(amount) =>
        if amount < PurgeMin || amount > PurgeMax {
          return Reply(InvalidArgument, false, NoPayload);
        }
        r := if platformOk then Reply(Completed, true, Deleted(deleted)) else Reply(Raised, true, NoPayload);
      case CmdStats(target) =>
        var who := if target.Some? then target.value else invoker;
        r := Reply(Completed, false, Stats(if who in commandUsage then commandUsage[who] else map[]));
      case AddXp(member, amount) =>
        if amount <= 0 {
          return Reply(InvalidArgument, false, NoPayload);
        }
        TrackCommand(invoker, "addxp");
        var newLevel := AddXp(member, amount);
        r := Reply(Completed, false, XpAdded(newLevel));
      case RemoveXp(member, amount) =>
        if amount <= 0 {
          return Reply(InvalidArgument, false, NoPayload);
        }
        TrackCommand(invoker, "removexp");
        var _ := AddXp(member, -amount);
        r := Reply(Completed, false, NoPayload);
      case Leaderboard =>
        r := Reply(Completed, false, Board(Ranking.Leaderboard(Standings())));
      case Lock =>
        r := Reply(if platformOk then Completed else Raised, true, NoPayload);
      case Unlock =>
        r := Reply(if platformOk then Completed else Raised, true, NoPayload);
      case Say(text) =>
        if platformOk {
          TrackCommand(invoker, "say");
          r := Reply(Completed, true, Echoed(text));
        } else {
          r := Reply(Raised, true, NoPayload);
        }
    }
  }
}
