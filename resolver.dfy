// The firing decision of the MessageCreate handler (index.ts:134-166): from a
// guild's record, the facts of one message and one draw per action, which
// actions fire. The effects themselves (reply, reaction, timeout, nickname)
// are calls into the chat platform and are not modelled.
module Resolver {
  import opened Utilities
  import opened Types
  import opened Config

  /** The facts of a message the handler reads: the guild id (null outside a guild), the channel,
      the author, and the role ids of the author's guild member (null when there is no member). */
  datatype Message = Message(
    guildId: Option<string>,
    channelId: string,
    authorId: string,
    memberRoles: Option<set<string>>)

  /** index.ts:145: a truthy role restriction lets through only members holding that role. */
  predicate RoleAllows(c: ServerConfiguration, memberRoles: Option<set<string>>)
    ensures c.onlyInteractWithThisRole.None? || c.onlyInteractWithThisRole == Some("") ==> RoleAllows(c, memberRoles)
    ensures Truthy(c.onlyInteractWithThisRole) && memberRoles.None? ==> !RoleAllows(c, memberRoles)
    ensures Truthy(c.onlyInteractWithThisRole) && memberRoles.Some? ==>
      (RoleAllows(c, memberRoles) <==> c.onlyInteractWithThisRole.value in memberRoles.value)
  {
    var role := c.onlyInteractWithThisRole;
    !Truthy(role) || (memberRoles.Some? && role.value in memberRoles.value)
  }

  /** The per-event gates of index.ts:139 and 145: not the bot's own message, the guild is
      globally enabled, and the role restriction (if any) is met. */
  predicate PassesGates(c: ServerConfiguration, msg: Message, botId: string)
    ensures PassesGates(c, msg, botId) ==> msg.authorId != botId && c.enable.global
    ensures !Truthy(c.onlyInteractWithThisRole) ==>
      (PassesGates(c, msg, botId) <==> msg.authorId != botId && c.enable.global)
  {
    msg.authorId != botId && c.enable.global && RoleAllows(c, msg.memberRoles)
  }

  /** One draw of Math.random() per action. */
  predicate ValidRolls(rolls: PerAction<real>) {
    forall a: BotAction :: 0.0 <= rolls.Get(a) < 1.0
  }

  /** The check for one action (index.ts:142, 147-163): the channel is not in the action's
      disable list and Math.floor(roll * chances[a]) === 1. enable[a] is not consulted. */
  predicate Hits(c: ServerConfiguration, a: BotAction, channelId: string, roll: real)
    requires 0.0 <= roll < 1.0
    ensures Hits(c, a, channelId, roll) ==> c.chances.Get(a) >= 2 && channelId !in c.disable.Get(a)
  {
    channelId !in c.disable.Get(a) && Draw(roll, c.chances.Get(a)) == 1
  }

  const NothingFired: PerAction<bool> := PerAction(false, false, false, false, false)

  /** Which actions fire for a message of a guild whose record is c. */
  function FiredActions(c: ServerConfiguration, msg: Message, botId: string, rolls: PerAction<real>): (fired: PerAction<bool>)
    requires ValidRolls(rolls)
    ensures !PassesGates(c, msg, botId) ==> fired == NothingFired
    ensures forall a: BotAction :: fired.Get(a) <==>
              PassesGates(c, msg, botId) && Hits(c, a, msg.channelId, rolls.Get(a))
  {
    if !PassesGates(c, msg, botId) then NothingFired
    else
      var ch := msg.channelId;
      PerAction(
        Hits(c, Insults, ch, rolls.Get(Insults)),
        Hits(c, Reactions, ch, rolls.Get(Reactions)),
        Hits(c, Timeouts, ch, rolls.Get(Timeouts)),
        Hits(c, NicknameChanger, ch, rolls.Get(NicknameChanger)),
        Hits(c, MuteMembers, ch, rolls.Get(MuteMembers)))
  }

  /** Kill switch: a guild with enable.global false gets no action, whatever else is set. */
  lemma GlobalDisableDominates(c: ServerConfiguration, msg: Message, botId: string, rolls: PerAction<real>)
    requires ValidRolls(rolls) && !c.enable.global
    ensures FiredActions(c, msg, botId, rolls) == NothingFired
  {
  }

  /** The bot never acts on its own messages. */
  lemma OwnMessagesIgnored(c: ServerConfiguration, msg: Message, rolls: PerAction<real>)
    requires ValidRolls(rolls)
    ensures FiredActions(c, msg, msg.authorId, rolls) == NothingFired
  {
  }

  /** Members without the restricted role, and authors with no member, get no action. */
  lemma RoleRestrictionBlocks(c: ServerConfiguration, msg: Message, botId: string, rolls: PerAction<real>)
    requires ValidRolls(rolls) && Truthy(c.onlyInteractWithThisRole)
    requires msg.memberRoles.None? || c.onlyInteractWithThisRole.value !in msg.memberRoles.value
    ensures FiredActions(c, msg, botId, rolls) == NothingFired
  {
  }

  /** Past the gates, an action with denominator N fires exactly for the draws in [1/N, 2/N):
      an interval of width 1/N, so the action fires with probability 1/N. */
  lemma FiringWindow(c: ServerConfiguration, msg: Message, botId: string, rolls: PerAction<real>, a: BotAction)
    requires ValidRolls(rolls) && PassesGates(c, msg, botId)
    requires msg.channelId !in c.disable.Get(a) && c.chances.Get(a) > 0
    ensures var n := c.chances.Get(a) as real;
      FiredActions(c, msg, botId, rolls).Get(a) <==> 1.0 / n <= rolls.Get(a) < 2.0 / n
  {
    DrawHitsInterval(rolls.Get(a), c.chances.Get(a), 1);
  }

  /** A disabled channel blocks its action whatever the draw. */
  lemma DisabledChannelBlocks(c: ServerConfiguration, msg: Message, botId: string, rolls: PerAction<real>, a: BotAction)
    requires ValidRolls(rolls) && msg.channelId in c.disable.Get(a)
    ensures !FiredActions(c, msg, botId, rolls).Get(a)
  {
  }

  /** A denominator below 2 never fires: floor(r * 1) is always 0, never the hit value 1. */
  lemma SmallChanceNeverFires(c: ServerConfiguration, msg: Message, botId: string, rolls: PerAction<real>, a: BotAction)
    requires ValidRolls(rolls) && c.chances.Get(a) < 2
    ensures !FiredActions(c, msg, botId, rolls).Get(a)
  {
    assert 0.0 <= rolls.Get(a) < 1.0;
  }

  /** The per-action enable flags have no effect on firing: only enable.global is read. */
  lemma ActionEnableFlagsIgnored(c: ServerConfiguration, msg: Message, botId: string, rolls: PerAction<real>, b: BotAction, v: bool)
    requires ValidRolls(rolls)
    ensures FiredActions(WithEnable(c, Action(b), v), msg, botId, rolls) == FiredActions(c, msg, botId, rolls)
  {
    var c' := WithEnable(c, Action(b), v);
    assert c'.enable.global == c.enable.global by {
      assert c'.enable.Get(Global) == c.enable.Get(Global);
    }
    PerActionExt(FiredActions(c', msg, botId, rolls), FiredActions(c, msg, botId, rolls));
  }

  /** Actions are decided independently: whether a fires depends on its own draw only. */
  lemma ActionsIndependent(c: ServerConfiguration, msg: Message, botId: string, rolls: PerAction<real>, rolls': PerAction<real>, a: BotAction)
    requires ValidRolls(rolls) && ValidRolls(rolls') && rolls.Get(a) == rolls'.Get(a)
    ensures FiredActions(c, msg, botId, rolls).Get(a) == FiredActions(c, msg, botId, rolls').Get(a)
  {
  }

  /** A fresh guild with insults disabled in channel C1: no insult in C1, while in any other
      channel insults keep the default 1-in-20 roll. */
  lemma DisableInsultsInOneChannel(msg: Message, botId: string, rolls: PerAction<real>)
    requires ValidRolls(rolls) && msg.authorId != botId
    ensures var c := WithDisableInHere(DefaultConfiguration(), Action(Insults), "C1", true);
      && (msg.channelId == "C1" ==> !FiredActions(c, msg, botId, rolls).insults)
      && (msg.channelId != "C1" ==>
            (FiredActions(c, msg, botId, rolls).insults <==> 1.0 / 20.0 <= rolls.insults < 2.0 / 20.0))
  {
    var c := WithDisableInHere(DefaultConfiguration(), Action(Insults), "C1", true);
    assert c.disable.Get(Insults) == ["C1"];
    assert c.enable.global && c.onlyInteractWithThisRole == None;
    assert rolls.Get(Insults) == rolls.insults;
    if msg.channelId != "C1" {
      FiringWindow(c, msg, botId, rolls, Insults);
    }
  }
}
