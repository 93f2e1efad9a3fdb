/** The bot's per-guild state and the handlers of index.js that change it: the three Maps of
    index.js:50-52, the `permissions` and `warnings` tables, the interaction dispatcher
    (index.js:143-347) and the body of the monitoring interval (index.js:98-140). Commands and
    ticks are modelled as method calls on one object, one after another. */
module Bot {

  import opened Ids
  import opened Permissions
  import opened Monitor
  import opened Warnings

  /** A slash command as the dispatcher receives it. `Other` stands for `ping`, `test`, `msg`
      and `del`, which read or change no state of this model. */
  datatype Command =
    | SetupCommand(created: ChannelId)
    | StartCommand
    | StopCommand
    | PermCommand(args: PermArgs)
    | PermListCommand
    | WarnCommand(target: UserId, reason: string, timestamp: int)
    | Other(name: CommandName)

  /** The names of the commands with a handler of their own; `Other` never carries one. */
  predicate OwnHandler(name: CommandName)
  {
    name in {"setup", "start", "stop", "perm", "perm_list", "warn"}
  }

  /** The `commandName` the permission gate is asked about. */
  function Name(cmd: Command): CommandName
  {
    match cmd
    case SetupCommand(_) => "setup"
    case StartCommand => "start"
    case StopCommand => "stop"
    case PermCommand(_) => "perm"
    case PermListCommand => "perm_list"
    case WarnCommand(_, _, _) => "warn"
    case Other(name) => name
  }

  /** The reply the invoking member sees, without its wording and decoration. */
  datatype Reply =
    | NoPermission
    | StatusChannelCreated(channel: ChannelId)
    | SetupFirst
    | MonitoringStarted
    | MonitoringStopped
    | PermissionsReset
    | ArgumentsMissing
    | RoleAllowed(role: RoleId, command: CommandName)
    | RoleDenied(role: RoleId, command: CommandName)
    | NoPermissionsSet
    | PermissionList(rows: seq<Rule>)
    | CannotWarnMyself
    | CannotWarnYourself
    | UserWarned(warning: Warning, statusChannel: Option<ChannelId>)
    | Handled

  /** The reply of each branch of the `perm` handler. */
  function PermReply(a: PermAction): Reply
  {
    match a
    case ResetAll => PermissionsReset
    case MissingArguments => ArgumentsMissing
    case AllowRole(role, c) => RoleAllowed(role, c)
    case DenyRole(role, c) => RoleDenied(role, c)
  }

  class StatusBot {
    /** `client.user.id`. */
    const botUser: UserId

    /** `setupChannels`: guild -> status channel. */
    var setupChannels: map<GuildId, ChannelId>
    /** The keys of `setupChannels` in insertion order, which is the order a JavaScript Map
        iterates in; setting an existing key keeps its place. */
    var setupOrder: seq<GuildId>
    /** `monitoringStatus`: guild -> monitoring enabled. */
    var monitoringStatus: map<GuildId, bool>
    /** `statusCache`: guild -> id of the last status card posted. */
    var statusCache: map<GuildId, MessageId>
    /** The `permissions` table. */
    var permissions: set<Rule>
    /** The `warnings` table, in insertion order. */
    var warnings: seq<Warning>
    /** SQLite's AUTOINCREMENT counter for `warnings`. */
    var warningSeq: nat

    ghost predicate Valid()
      reads this
    {
      && Distinct(setupOrder)
      && (forall g :: g in setupOrder <==> g in setupChannels)
      && monitoringStatus.Keys == setupChannels.Keys
      && statusCache.Keys <= setupChannels.Keys
      && IdsIssued(warnings, warningSeq)
    }

    /** Start-up (index.js:23-52): the three Maps start empty, while the two tables and the
        AUTOINCREMENT counter are whatever `./permissions.db` holds from earlier runs (empty
        tables and 0 for a new file). */
    constructor (botUser: UserId, storedRules: set<Rule>, storedWarnings: seq<Warning>, storedSeq: nat)
      requires IdsIssued(storedWarnings, storedSeq)
      ensures Valid()
      ensures this.botUser == botUser
      ensures setupChannels == map[] && setupOrder == [] && monitoringStatus == map[] && statusCache == map[]
      ensures permissions == storedRules && warnings == storedWarnings && warningSeq == storedSeq
    {
      this.botUser := botUser;
      setupChannels, setupOrder, monitoringStatus, statusCache := map[], [], map[], map[];
      permissions, warnings, warningSeq := storedRules, storedWarnings, storedSeq;
    }

    /** The change of state of `setup` for guild `g` and the new channel `created`. */
    twostate predicate SetupEffect(g: GuildId, created: ChannelId)
      reads this
    {
      && setupChannels == old(setupChannels)[g := created]
      && monitoringStatus == old(monitoringStatus)[g := true]
      && setupOrder == (if g in old(setupChannels) then old(setupOrder) else old(setupOrder) + [g])
    }

    /** `setup` (index.js:177-186): binds the guild to the channel just created and turns
        monitoring on, whether or not the guild was set up before. The card cache is kept. */
    method Setup(g: GuildId, created: ChannelId)
      requires Valid()
      modifies this`setupChannels, this`setupOrder, this`monitoringStatus
      ensures Valid()
      ensures SetupEffect(g, created) && PermissionsKept() && WarningsKept()
    {
      if g !in setupChannels {
        setupOrder := setupOrder + [g];
      }
      setupChannels := setupChannels[g := created];
      monitoringStatus := monitoringStatus[g := true];
    }

    /** The reply and change of state of `start` for guild `g`. */
    twostate predicate StartEffect(g: GuildId, reply: Reply)
      reads this
    {
      && (g in setupChannels ==> reply == MonitoringStarted && monitoringStatus == old(monitoringStatus)[g := true])
      && (g !in setupChannels ==> reply == SetupFirst && monitoringStatus == old(monitoringStatus))
    }

    /** `start` (index.js:188-195): turns monitoring on for a guild that has been set up;
        otherwise asks for `setup` and changes nothing. */
    method Start(g: GuildId) returns (reply: Reply)
      requires Valid()
      modifies this`monitoringStatus
      ensures Valid()
      ensures StartEffect(g, reply) && ChannelsKept() && PermissionsKept() && WarningsKept()
    {
      if g !in setupChannels {
        reply := SetupFirst;
      } else {
        monitoringStatus := monitoringStatus[g := true];
        reply := MonitoringStarted;
      }
    }

    /** The reply and change of state of `stop` for guild `g`. */
    twostate predicate StopEffect(g: GuildId, reply: Reply)
      reads this
    {
      && (g in setupChannels ==> reply == MonitoringStopped && monitoringStatus == old(monitoringStatus)[g := false])
      && (g !in setupChannels ==> reply == SetupFirst && monitoringStatus == old(monitoringStatus))
    }

    /** `stop` (index.js:197-204): turns monitoring off for a guild that has been set up;
        otherwise asks for `setup` and changes nothing. */
    method Stop(g: GuildId) returns (reply: Reply)
      requires Valid()
      modifies this`monitoringStatus
      ensures Valid()
      ensures StopEffect(g, reply) && ChannelsKept() && PermissionsKept() && WarningsKept()
    {
      if g !in setupChannels {
        reply := SetupFirst;
      } else {
        monitoringStatus := monitoringStatus[g := false];
        reply := MonitoringStopped;
      }
    }

    /** The reply and change of the table of `perm` for guild `g`. */
    twostate predicate PermEffect(g: GuildId, args: PermArgs, reply: Reply)
      reads this
    {
      && permissions == ApplyPerm(old(permissions), g, PermDecision(args))
      && reply == PermReply(PermDecision(args))
    }

    /** `perm` (index.js:231-255): DELETE of the guild's rows on reset, INSERT OR IGNORE on
        allow, DELETE of one row on deny, nothing when an argument is missing. */
    method Perm(g: GuildId, args: PermArgs) returns (reply: Reply)
      requires Valid()
      modifies this`permissions
      ensures Valid()
      ensures PermEffect(g, args, reply) && ChannelsKept() && MonitoringKept() && WarningsKept()
    {
      var action := PermDecision(args);
      match action {
        case ResetAll =>
          permissions := set r | r in permissions && r.guild != g;
        case MissingArguments =>
        case AllowRole(role, c) =>
          permissions := permissions + {Rule(g, c, role)};
        case DenyRole(role, c) =>
          permissions := permissions - {Rule(g, c, role)};
      }
      reply := PermReply(action);
    }

    /** The reply of `perm_list` for guild `g`: "no permissions set" exactly when the guild
        has no rows, otherwise each of its rows once. */
    ghost predicate PermListReply(g: GuildId, reply: Reply)
      reads this
    {
      && (reply == NoPermissionsSet <==> forall r :: r in permissions ==> r.guild != g)
      && (reply != NoPermissionsSet ==> reply.PermissionList?)
      && (reply.PermissionList? ==>
            Distinct(reply.rows) && forall r :: r in reply.rows <==> r in permissions && r.guild == g)
    }

    /** `perm_list` (index.js:257-265): "no permissions set" for a guild without rows,
        otherwise one line per row of the guild. */
    method PermList(g: GuildId) returns (reply: Reply)
      ensures PermListReply(g, reply)
    {
      var rows := Select(permissions, g, None);
      if |rows| == 0 {
        assert forall r :: r in permissions && r.guild == g ==> r in rows;
        reply := NoPermissionsSet;
      } else {
        assert rows[0] in rows;
        reply := PermissionList(rows);
      }
    }

    /** `hasPermission` (index.js:349-358) over the current table. */
    method IsAuthorized(g: GuildId, c: CommandName, held: set<RoleId>) returns (allowed: bool)
      ensures allowed == Authorized(permissions, g, c, held)
    {
      var rows := Select(permissions, g, Some(c));
      allowed := HasPermission(RoleColumn(rows), held);
      HasPermissionIsAuthorized(permissions, g, c, rows, held);
    }

    /** `setupChannels.get(guild.id)`, where an accepted warning is also posted. */
    function StatusChannel(g: GuildId): (r: Option<ChannelId>)
      reads this
      ensures r.Some? <==> g in setupChannels
    {
      if g in setupChannels then Some(setupChannels[g]) else None
    }

    /** The reply and change of the table of `warn`: the bot and the issuer are refused and
        leave the table as it was; any other target gets one new row at the end, with an id
        larger than every earlier one. */
    twostate predicate WarnEffect(g: GuildId, issuer: UserId, target: UserId, reason: string, timestamp: int, reply: Reply)
      reads this
    {
      && (target == botUser ==> reply == CannotWarnMyself && warnings == old(warnings) && warningSeq == old(warningSeq))
      && (target != botUser && target == issuer ==>
            reply == CannotWarnYourself && warnings == old(warnings) && warningSeq == old(warningSeq))
      && (target != botUser && target != issuer ==>
            && |warnings| == |old(warnings)| + 1
            && warnings[..|old(warnings)|] == old(warnings)
            && warnings[|old(warnings)|] == Warning(warningSeq, g, target, reason, issuer, timestamp)
            && (forall w :: w in old(warnings) ==> w.id < warningSeq)
            && reply == UserWarned(warnings[|old(warnings)|], StatusChannel(g)))
    }

    /** `warn` (index.js:277-337): refuses the bot as target, then the issuer; otherwise
        appends one row whose id is larger than every earlier one. */
    method Warn(g: GuildId, issuer: UserId, target: UserId, reason: string, timestamp: int) returns (reply: Reply)
      requires Valid()
      modifies this`warnings, this`warningSeq
      ensures Valid()
      ensures WarnEffect(g, issuer, target, reason, timestamp, reply) && ChannelsKept() && MonitoringKept() && PermissionsKept()
    {
      match CheckTarget(target, botUser, issuer) {
        case CannotWarnBot =>
          reply := CannotWarnMyself;
        case CannotWarnSelf =>
          reply := CannotWarnYourself;
        case TargetOk =>
          var (rows, last) := Insert(warnings, warningSeq, g, target, reason, issuer, timestamp);
          warnings, warningSeq := rows, last;
          reply := UserWarned(warnings[|warnings| - 1], StatusChannel(g));
      }
    }

    /** One run of the monitoring interval (index.js:98-140): the reconcile step for every
        guild with a status channel, in `setupChannels` order, updating the card cache. */
    method Tick(probe: GuildId -> Probe) returns (calls: seq<Call>)
      requires Valid()
      modifies this`statusCache
      ensures Valid()
      ensures TickResult(calls, statusCache) == RunTick(setupOrder, setupChannels, monitoringStatus, old(statusCache), probe)
    {
      calls := [];
      var i := 0;
      while i < |setupOrder|
        invariant 0 <= i <= |setupOrder|
        invariant statusCache.Keys <= setupChannels.Keys
        invariant TickResult(calls, statusCache) ==
          RunTick(setupOrder[..i], setupChannels, monitoringStatus, old(statusCache), probe)
      {
        var g := setupOrder[i];
        var step := Reconcile(g, Enabled(monitoringStatus, g), setupChannels[g], CachedOf(statusCache, g), probe(g));
        assert setupOrder[..i + 1][..i] == setupOrder[..i] && setupOrder[..i + 1][i] == g;
        assert RunTick(setupOrder[..i + 1], setupChannels, monitoringStatus, old(statusCache), probe)
          == TickResult(calls + step.calls, Store(statusCache, g, step.cache));
        calls := calls + step.calls;
        statusCache := Store(statusCache, g, step.cache);
        i := i + 1;
      }
      assert setupOrder[..i] == setupOrder;
    }

    /** What the handler of `cmd` does for guild `g` (index.js:177-337): its change of state,
        its reply, and that it changes nothing else. */
    twostate predicate HandlerEffect(g: GuildId, issuer: UserId, cmd: Command, reply: Reply)
      reads this
    {
      && statusCache == old(statusCache)
      && match cmd
         case SetupCommand(created) =>
           SetupEffect(g, created) && reply == StatusChannelCreated(created) && PermissionsKept() && WarningsKept()
         case StartCommand =>
           StartEffect(g, reply) && ChannelsKept() && PermissionsKept() && WarningsKept()
         case StopCommand =>
           StopEffect(g, reply) && ChannelsKept() && PermissionsKept() && WarningsKept()
         case PermCommand(args) =>
           PermEffect(g, args, reply) && ChannelsKept() && MonitoringKept() && WarningsKept()
         case PermListCommand =>
           PermListReply(g, reply) && ChannelsKept() && MonitoringKept() && PermissionsKept() && WarningsKept()
         case WarnCommand(target, reason, timestamp) =>
           WarnEffect(g, issuer, target, reason, timestamp, reply) && ChannelsKept() && MonitoringKept() && PermissionsKept()
         case Other(_) =>
           reply == Handled && ChannelsKept() && MonitoringKept() && PermissionsKept() && WarningsKept()
    }

    /** `setupChannels` and its order are as they were. */
    twostate predicate ChannelsKept()
      reads this
    {
      setupChannels == old(setupChannels) && setupOrder == old(setupOrder)
    }

    /** `monitoringStatus` is as it was. */
    twostate predicate MonitoringKept()
      reads this
    {
      monitoringStatus == old(monitoringStatus)
    }

    /** The `permissions` table is as it was. */
    twostate predicate PermissionsKept()
      reads this
    {
      permissions == old(permissions)
    }

    /** The `warnings` table and its counter are as they were. */
    twostate predicate WarningsKept()
      reads this
    {
      warnings == old(warnings) && warningSeq == old(warningSeq)
    }

    /** The branches of the interaction handler (index.js:154-337): each command runs its
        own handler, and no other state changes. */
    method Dispatch(g: GuildId, issuer: UserId, cmd: Command) returns (reply: Reply)
      requires Valid()
      requires cmd.Other? ==> !OwnHandler(cmd.name)
      modifies this`setupChannels, this`setupOrder, this`monitoringStatus, this`permissions, this`warnings, this`warningSeq
      ensures Valid()
      ensures reply != NoPermission
      ensures HandlerEffect(g, issuer, cmd, reply)
    {
      match cmd {
        case SetupCommand(created) =>
          Setup(g, created);
          reply := StatusChannelCreated(created);
        case StartCommand =>
          reply := Start(g);
        case StopCommand =>
          reply := Stop(g);
        case PermCommand(args) =>
          reply := Perm(g, args);
        case PermListCommand =>
          reply := PermList(g);
        case WarnCommand(target, reason, timestamp) =>
          reply := Warn(g, issuer, target, reason, timestamp);
        case Other(_) =>
          reply := Handled;
      }
    }

    /** The interaction handler (index.js:143-152): the permission gate first. A denied
        command gets the uniform denial and changes nothing; an authorized one has exactly
        its handler's effect. The status card cache is never touched by a command. */
    method Handle(g: GuildId, issuer: UserId, held: set<RoleId>, cmd: Command) returns (reply: Reply)
      requires Valid()
      requires cmd.Other? ==> !OwnHandler(cmd.name)
      modifies this`setupChannels, this`setupOrder, this`monitoringStatus, this`permissions, this`warnings, this`warningSeq
      ensures Valid()
      ensures !Authorized(old(permissions), g, Name(cmd), held) ==> reply == NoPermission && unchanged(this)
      ensures Authorized(old(permissions), g, Name(cmd), held) ==>
        reply != NoPermission && HandlerEffect(g, issuer, cmd, reply)
      ensures statusCache == old(statusCache)
    {
      var allowed := IsAuthorized(g, Name(cmd), held);
      if !allowed {
        return NoPermission;
      }
      reply := Dispatch(g, issuer, cmd);
    }
  }
}
