// The state of index.ts: the module-level dictionary `serverConfigs`, the
// handlers that change it in place, the interaction dispatch and the message
// handler. Replies, persistence to disk and every call into the chat platform
// are left out: only each handler's effect on the dictionary is modelled.
module Bot {
  import opened Utilities
  import opened Types
  import opened Config
  import opened Resolver

  /** getGuildId (index.ts:38): the guild id, or the channel id when there is none (`??`). */
  function GetGuildId(guildId: Option<string>, channelId: string): (key: string)
    ensures guildId.Some? ==> key == guildId.value
    ensures guildId.None? ==> key == channelId
  {
    match guildId
    case Some(g) => g
    case None => channelId
  }

  /** The four commands of the `set` root command. */
  datatype Command = SetGlobal | SetDisableInHere | SetChance | SetOnlyInteractWith

  function SubcommandName(c: Command): string {
    match c
    case SetGlobal => "global"
    case SetDisableInHere => "disable-in-here"
    case SetChance => "chance"
    case SetOnlyInteractWith => "only-interact-with"
  }

  /** The command name of index.ts:173: root name, then the dashed group and subcommand. */
  function CommandName(commandName: string, group: Option<string>, subcommand: Option<string>): (name: string)
    ensures |name| >= |commandName| && name[..|commandName|] == commandName
    ensures !Truthy(group) && !Truthy(subcommand) ==> name == commandName
    ensures !Truthy(group) && Truthy(subcommand) ==> name == commandName + "-" + subcommand.value
  {
    commandName + Dash(group) + Dash(subcommand)
  }

  /** The name a case of the switch of index.ts:175-180 matches: "set-" and the subcommand. */
  function SetName(c: Command): string {
    "set-" + SubcommandName(c)
  }

  /** The four case names are pairwise different. */
  lemma SetNamesDistinct(c: Command, d: Command)
    ensures SetName(c) == SetName(d) <==> c == d
  {
    if c != d {
      var s, t := SubcommandName(c), SubcommandName(d);
      assert SetName(c)[4..] == s && SetName(d)[4..] == t;
      if |s| == |t| {
        assert {c, d} == {SetGlobal, SetChance};
        assert s[0] != t[0];
      }
    }
  }

  /** The switch of index.ts:175-180: only the four `set-…` names dispatch. */
  function Dispatch(name: string): (r: Option<Command>)
    ensures r.Some? ==> name == SetName(r.value)
  {
    if name == SetName(SetGlobal) then Some(SetGlobal)
    else if name == SetName(SetDisableInHere) then Some(SetDisableInHere)
    else if name == SetName(SetChance) then Some(SetChance)
    else if name == SetName(SetOnlyInteractWith) then Some(SetOnlyInteractWith)
    else None
  }

  /** A name dispatches to c exactly when it is c's case name. */
  lemma DispatchExactly(name: string, c: Command)
    ensures Dispatch(name) == Some(c) <==> name == SetName(c)
  {
    if name == SetName(c) {
      SetNamesDistinct(c, SetGlobal);
      SetNamesDistinct(c, SetDisableInHere);
      SetNamesDistinct(c, SetChance);
    }
  }

  /** `set <sub>` with no subcommand group reaches the handler of <sub>; an empty group
      name is the same as none. */
  lemma SubcommandsDispatch(c: Command, group: Option<string>)
    requires !Truthy(group)
    ensures CommandName("set", group, Some(SubcommandName(c))) == SetName(c)
    ensures Dispatch(CommandName("set", group, Some(SubcommandName(c)))) == Some(c)
  {
    assert Dash(group) == "";
    assert "set" + "" + ("-" + SubcommandName(c)) == "set-" + SubcommandName(c);
    DispatchExactly(SetName(c), c);
  }

  /** The option values a command interaction carries (absent options are None). `action` is
      the raw string of the option; the handlers use it as a record key. */
  datatype CommandOptions = CommandOptions(
    action: Option<string>,
    enable: Option<bool>,
    channel: Option<string>,
    disable: Option<bool>,
    role: Option<string>,
    chance: Option<int>)

  datatype Interaction = Interaction(
    isChatInputCommand: bool,
    guildId: Option<string>,
    channelId: string,
    commandName: string,
    subcommandGroup: Option<string>,
    subcommand: Option<string>,
    options: CommandOptions)

  /** What the command surface guarantees of the option values: a chance is at least 2,
      its declared minimum. */
  predicate ValidOptions(o: CommandOptions) {
    o.chance.Some? ==> o.chance.value >= 2
  }

  /** The change one handler makes to its guild's record, with the option defaults of the
      source. A missing required option, or a key the record has no list for, makes the
      handler throw before it writes; a key the record has no entry for is written beside the
      modelled entries. Either way the modelled record stays as it is. Each command touches
      its own field only, and no command lets a chance drop below 2. */
  function CommandEffect(c: ServerConfiguration, cmd: Command, o: CommandOptions, channelId: string): (r: ServerConfiguration)
    requires ValidOptions(o)
    ensures WellFormed(c) ==> WellFormed(r)
    ensures cmd != SetChance ==> r.chances == c.chances
    ensures cmd != SetGlobal ==> r.enable == c.enable
    ensures cmd != SetDisableInHere ==> r.disable == c.disable
    ensures cmd != SetOnlyInteractWith ==> r.onlyInteractWithThisRole == c.onlyInteractWithThisRole
    ensures cmd == SetChance && o.action.Some? && ParseAction(o.action.value).None? ==> r == c
    ensures cmd != SetOnlyInteractWith && o.action.Some? && ParseEnableKey(o.action.value).None? ==> r == c
  {
    match cmd
    case SetChance =>
      if o.action.None? || o.chance.None? then c
      else (match ParseAction(o.action.value)
        case None => c
        case Some(a) => WithChance(c, a, o.chance.value))
    case SetGlobal =>
      (match ParseEnableKey(if o.action.Some? then o.action.value else "global")
       case None => c
       case Some(k) => WithEnable(c, k, if o.enable.Some? then o.enable.value else true))
    case SetDisableInHere =>
      if o.action.None? then c
      else (match ParseEnableKey(o.action.value)
        case None => c
        case Some(k) =>
          WithDisableInHere(c, k, if o.channel.Some? then o.channel.value else channelId,
                            if o.disable.Some? then o.disable.value else true))
    case SetOnlyInteractWith =>
      if o.role.None? then c else WithRole(c, o.role.value)
  }

  /** The dictionary after an interaction (index.ts:168-181): the guild key is added if absent,
      then a dispatched command changes that guild's record. */
  function AfterInteraction(m: map<string, ServerConfiguration>, i: Interaction): (r: map<string, ServerConfiguration>)
    requires ValidOptions(i.options)
    ensures !i.isChatInputCommand ==> r == m
    ensures i.isChatInputCommand ==> r.Keys == m.Keys + {GetGuildId(i.guildId, i.channelId)}
    ensures forall k :: k in m && k != GetGuildId(i.guildId, i.channelId) ==> r[k] == m[k]
  {
    if !i.isChatInputCommand then m
    else
      var key := GetGuildId(i.guildId, i.channelId);
      var m' := WithServer(m, key);
      match Dispatch(CommandName(i.commandName, i.subcommandGroup, i.subcommand))
      case None => m'
      case Some(cmd) => m'[key := CommandEffect(m'[key], cmd, i.options, i.channelId)]
  }

  /** A name outside the four only adds the guild's default record. */
  lemma UnknownCommandOnlyAddsServer(m: map<string, ServerConfiguration>, i: Interaction)
    requires i.isChatInputCommand
    requires Dispatch(CommandName(i.commandName, i.subcommandGroup, i.subcommand)).None?
    requires ValidOptions(i.options)
    ensures AfterInteraction(m, i) == WithServer(m, GetGuildId(i.guildId, i.channelId))
  {
  }

  /** An action string that is no key of the record (such as "setVCStatus") leaves the three
      action commands without a modelled effect: only the guild's default record is added. */
  lemma UnknownKeyOnlyAddsServer(m: map<string, ServerConfiguration>, i: Interaction, cmd: Command)
    requires i.isChatInputCommand && ValidOptions(i.options)
    requires CommandName(i.commandName, i.subcommandGroup, i.subcommand) == SetName(cmd)
    requires cmd != SetOnlyInteractWith
    requires i.options.action.Some? && ParseEnableKey(i.options.action.value).None?
    ensures AfterInteraction(m, i) == WithServer(m, GetGuildId(i.guildId, i.channelId))
  {
    DispatchExactly(SetName(cmd), cmd);
    var key := GetGuildId(i.guildId, i.channelId);
    assert WithServer(m, key)[key := WithServer(m, key)[key]] == WithServer(m, key);
  }

  /** The chance command changes chances[a] of its own guild's record and nothing else. */
  lemma SetChanceChangesOneEntry(m: map<string, ServerConfiguration>, i: Interaction, key: string, a: BotAction, n: int)
    requires i.isChatInputCommand && key == GetGuildId(i.guildId, i.channelId)
    requires CommandName(i.commandName, i.subcommandGroup, i.subcommand) == SetName(SetChance)
    requires i.options.action == Some(ActionName(a)) && i.options.chance == Some(n) && n >= 2
    ensures var r := AfterInteraction(m, i);
      && key in r && r[key].chances.Get(a) == n
      && (forall b: BotAction :: b != a ==> r[key].chances.Get(b) == WithServer(m, key)[key].chances.Get(b))
      && r[key].enable == WithServer(m, key)[key].enable
      && r[key].disable == WithServer(m, key)[key].disable
      && r[key].onlyInteractWithThisRole == WithServer(m, key)[key].onlyInteractWithThisRole
  {
    DispatchExactly(SetName(SetChance), SetChance);
    NamesRoundTrip(Action(a));
  }

  /** `set global` with no options turns the whole guild on. */
  lemma SetGlobalDefaults(m: map<string, ServerConfiguration>, i: Interaction)
    requires i.isChatInputCommand
    requires CommandName(i.commandName, i.subcommandGroup, i.subcommand) == SetName(SetGlobal)
    requires i.options.action.None? && i.options.enable.None? && ValidOptions(i.options)
    ensures var key := GetGuildId(i.guildId, i.channelId);
      AfterInteraction(m, i)[key] == WithEnable(WithServer(m, key)[key], Global, true)
  {
    DispatchExactly(SetName(SetGlobal), SetGlobal);
    NamesRoundTrip(Global);
  }

  /** `set global action:<k>` writes enable[k] and nothing else; enable defaults to true
      (index.ts:91-94). */
  lemma SetGlobalSets(m: map<string, ServerConfiguration>, i: Interaction, k: EnableKey)
    requires i.isChatInputCommand
    requires CommandName(i.commandName, i.subcommandGroup, i.subcommand) == SetName(SetGlobal)
    requires i.options.action == Some(EnableKeyName(k)) && ValidOptions(i.options)
    ensures var key := GetGuildId(i.guildId, i.channelId);
      AfterInteraction(m, i)[key] ==
        WithEnable(WithServer(m, key)[key], k, if i.options.enable.Some? then i.options.enable.value else true)
  {
    DispatchExactly(SetName(SetGlobal), SetGlobal);
    NamesRoundTrip(k);
  }

  /** `set disable-in-here action:<k>` with no other option disables k in the channel the
      command was sent in (index.ts:101-102). */
  lemma SetDisableInHereDefaults(m: map<string, ServerConfiguration>, i: Interaction, k: EnableKey)
    requires i.isChatInputCommand
    requires CommandName(i.commandName, i.subcommandGroup, i.subcommand) == SetName(SetDisableInHere)
    requires i.options.action == Some(EnableKeyName(k)) && i.options.channel.None? && i.options.disable.None?
    requires ValidOptions(i.options)
    ensures var key := GetGuildId(i.guildId, i.channelId);
      AfterInteraction(m, i)[key] == WithDisableInHere(WithServer(m, key)[key], k, i.channelId, true)
  {
    DispatchExactly(SetName(SetDisableInHere), SetDisableInHere);
    NamesRoundTrip(k);
  }

  /** `set disable-in-here action:<k>` with explicit options toggles that channel as asked. */
  lemma SetDisableInHereSets(m: map<string, ServerConfiguration>, i: Interaction, k: EnableKey, channel: string, disable: bool)
    requires i.isChatInputCommand
    requires CommandName(i.commandName, i.subcommandGroup, i.subcommand) == SetName(SetDisableInHere)
    requires i.options.action == Some(EnableKeyName(k))
    requires i.options.channel == Some(channel) && i.options.disable == Some(disable)
    requires ValidOptions(i.options)
    ensures var key := GetGuildId(i.guildId, i.channelId);
      AfterInteraction(m, i)[key] == WithDisableInHere(WithServer(m, key)[key], k, channel, disable)
  {
    DispatchExactly(SetName(SetDisableInHere), SetDisableInHere);
    NamesRoundTrip(k);
  }

  /** `set only-interact-with role:<r>` makes r the guild's only role (index.ts:121). */
  lemma SetOnlyInteractWithSetsRole(m: map<string, ServerConfiguration>, i: Interaction, role: string)
    requires i.isChatInputCommand
    requires CommandName(i.commandName, i.subcommandGroup, i.subcommand) == SetName(SetOnlyInteractWith)
    requires i.options.role == Some(role) && ValidOptions(i.options)
    ensures var key := GetGuildId(i.guildId, i.channelId);
      AfterInteraction(m, i)[key] == WithRole(WithServer(m, key)[key], role)
  {
    DispatchExactly(SetName(SetOnlyInteractWith), SetOnlyInteractWith);
  }

  /** The store of guild records, keyed by guild id (or channel id outside a guild). */
  class ConfigStore {
    var configs: map<string, ServerConfiguration>

    /** Every record keeps its chances at 2 or more. */
    ghost predicate Valid()
      reads this
    {
      forall k :: k in configs ==> WellFormed(configs[k])
    }

    /** index.ts:33: the store starts empty (loading a saved store is not modelled). */
    constructor ()
      ensures Valid() && configs == map[]
    {
      configs := map[];
    }

    /** addServerIfNotExists (index.ts:39-67). */
    method AddServerIfNotExists(guildId: string)
      requires Valid()
      modifies this
      ensures Valid()
      ensures configs == WithServer(old(configs), guildId)
    {
      if guildId in configs {
        return;
      }
      configs := configs[guildId := DefaultConfiguration()];
    }

    /** cmdSetChance's write (index.ts:85). */
    method SetChanceOf(guildId: string, action: BotAction, chance: int)
      requires Valid() && guildId in configs && chance >= 2
      modifies this
      ensures Valid()
      ensures configs == old(configs)[guildId := WithChance(old(configs)[guildId], action, chance)]
    {
      configs := configs[guildId := WithChance(configs[guildId], action, chance)];
    }

    /** cmdSetGlobal's write (index.ts:94). */
    method SetEnable(guildId: string, key: EnableKey, enable: bool)
      requires Valid() && guildId in configs
      modifies this
      ensures Valid()
      ensures configs == old(configs)[guildId := WithEnable(old(configs)[guildId], key, enable)]
    {
      configs := configs[guildId := WithEnable(configs[guildId], key, enable)];
    }

    /** cmdSetDisableInHere's writes (index.ts:104-113): for "global" a loop over the keys of the
        disable record updates each list; otherwise the one list of the action. */
    method SetDisabledIn(guildId: string, key: EnableKey, channel: string, disable: bool)
      requires Valid() && guildId in configs
      modifies this
      ensures Valid()
      ensures configs == old(configs)[guildId := WithDisableInHere(old(configs)[guildId], key, channel, disable)]
    {
      var c := configs[guildId];
      var d := c.disable;
      match key {
        case Global =>
          AllActionsListsEachOnce();
          for i := 0 to |AllActions|
            invariant forall j :: 0 <= j < i ==>
              d.Get(AllActions[j]) == ToggleChannel(c.disable.Get(AllActions[j]), channel, disable)
            invariant forall j :: i <= j < |AllActions| ==> d.Get(AllActions[j]) == c.disable.Get(AllActions[j])
          {
            var a := AllActions[i];
            d := d.Set(a, ToggleChannel(d.Get(a), channel, disable));
          }
        case Action(a) =>
          d := d.Set(a, ToggleChannel(d.Get(a), channel, disable));
      }
      forall a: BotAction
        ensures d.Get(a) == WithDisableInHere(c, key, channel, disable).disable.Get(a)
      {
        assert AllActions[ActionIndex(a)] == a;
      }
      PerActionExt(d, WithDisableInHere(c, key, channel, disable).disable);
      configs := configs[guildId := c.(disable := d)];
    }

    /** cmdSetOnlyInteractWith's write (index.ts:121). */
    method SetRole(guildId: string, role: string)
      requires Valid() && guildId in configs
      modifies this
      ensures Valid()
      ensures configs == old(configs)[guildId := WithRole(old(configs)[guildId], role)]
    {
      configs := configs[guildId := WithRole(configs[guildId], role)];
    }

    /** One of the four command handlers (index.ts:81-125) on the record of guild `key`: the
        options are read with their defaults, then the write is made. */
    method ApplyCommand(key: string, cmd: Command, o: CommandOptions, channelId: string)
      requires Valid() && key in configs && ValidOptions(o)
      modifies this
      ensures Valid()
      ensures configs == old(configs)[key := CommandEffect(old(configs)[key], cmd, o, channelId)]
    {
      match cmd {
        case SetGlobal =>
          var action := if o.action.Some? then o.action.value else "global";
          var enable := if o.enable.Some? then o.enable.value else true;
          match ParseEnableKey(action) {
            case None =>
            case Some(k) => SetEnable(key, k, enable);
          }
        case SetDisableInHere =>
          if o.action.Some? {
            var channel := if o.channel.Some? then o.channel.value else channelId;
            var disable := if o.disable.Some? then o.disable.value else true;
            match ParseEnableKey(o.action.value) {
              case None =>
              case Some(k) => SetDisabledIn(key, k, channel, disable);
            }
          }
        case SetChance =>
          if o.action.Some? && o.chance.Some? {
            match ParseAction(o.action.value) {
              case None =>
              case Some(a) => SetChanceOf(key, a, o.chance.value);
            }
          }
        case SetOnlyInteractWith =>
          if o.role.Some? {
            SetRole(key, o.role.value);
          }
      }
    }

    /** The InteractionCreate handler (index.ts:168-181): the guild's record is added if absent,
        then the command the name dispatches to is applied. */
    method HandleInteraction(i: Interaction)
      requires Valid() && ValidOptions(i.options)
      modifies this
      ensures Valid()
      ensures configs == AfterInteraction(old(configs), i)
    {
      if !i.isChatInputCommand {
        return;
      }
      var key := GetGuildId(i.guildId, i.channelId);
      AddServerIfNotExists(key);
      match Dispatch(CommandName(i.commandName, i.subcommandGroup, i.subcommand)) {
        case None =>
        case Some(cmd) => ApplyCommand(key, cmd, i.options, i.channelId);
      }
    }

    /** The MessageCreate handler (index.ts:134-166): a message outside a guild changes nothing
        and fires nothing; otherwise the guild's record is added if absent and the firing
        decision is made on it, with one draw per action. */
    method OnMessage(msg: Message, botId: string, rolls: PerAction<real>) returns (fired: PerAction<bool>)
      requires Valid() && ValidRolls(rolls)
      modifies this
      ensures Valid()
      ensures !Truthy(msg.guildId) ==> configs == old(configs) && fired == NothingFired
      ensures Truthy(msg.guildId) ==>
        && configs == WithServer(old(configs), msg.guildId.value)
        && fired == FiredActions(configs[msg.guildId.value], msg, botId, rolls)
    {
      if !Truthy(msg.guildId) {
        return NothingFired;
      }
      var guildId := msg.guildId.value;
      AddServerIfNotExists(guildId);
      fired := FiredActions(configs[guildId], msg, botId, rolls);
    }
  }
}
