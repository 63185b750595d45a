// The per-guild configuration records of index.ts as values: the default
// record inserted by addServerIfNotExists and the change each `set` command
// makes to one record. The store that holds them is Bot.ConfigStore.
module Config {
  import opened Utilities
  import opened Types

  // index.ts:22-26
  const DefaultInsultChance: int := 20
  const DefaultReactionChance: int := 20
  const DefaultTimeoutChance: int := 500
  const DefaultNicknameChangeChance: int := 50
  const DefaultMuteMemberChance: int := 200

  /** Every chance is a denominator of at least 2, the minimum the chance command declares. */
  predicate WellFormed(c: ServerConfiguration) {
    forall a: BotAction :: c.chances.Get(a) >= 2
  }

  /** The record addServerIfNotExists inserts (index.ts:42-66). */
  function DefaultConfiguration(): (c: ServerConfiguration)
    ensures c.enable.Get(Global)
    ensures forall a: BotAction :: c.enable.Get(Action(a)) <==> a != Timeouts
    ensures c.chances.Get(Insults) == 20 && c.chances.Get(Reactions) == 20
    ensures c.chances.Get(Timeouts) == 500 && c.chances.Get(NicknameChanger) == 50
    ensures c.chances.Get(MuteMembers) == 200
    ensures forall a: BotAction :: c.disable.Get(a) == []
    ensures c.onlyInteractWithThisRole == None
    ensures WellFormed(c)
  {
    ServerConfiguration(
      Enable(true, PerAction(true, true, false, true, true)),
      PerAction(DefaultInsultChance, DefaultReactionChance, DefaultTimeoutChance,
                DefaultNicknameChangeChance, DefaultMuteMemberChance),
      PerAction([], [], [], [], []),
      None)
  }

  /** addServerIfNotExists on the dictionary (index.ts:39-67): a default record is added only
      for an absent key; a present record and every other key are left as they are. */
  function WithServer(m: map<string, ServerConfiguration>, key: string): (r: map<string, ServerConfiguration>)
    ensures r.Keys == m.Keys + {key}
    ensures key in m ==> r == m
    ensures key !in m ==> r[key] == DefaultConfiguration()
    ensures forall k :: k in m ==> r[k] == m[k]
  {
    if key in m then m else m[key := DefaultConfiguration()]
  }

  lemma WithServerIdempotent(m: map<string, ServerConfiguration>, key: string)
    ensures WithServer(WithServer(m, key), key) == WithServer(m, key)
  {
  }

  /** cmdSetChance's change (index.ts:85): only chances[a]. */
  function WithChance(c: ServerConfiguration, a: BotAction, chance: int): (r: ServerConfiguration)
    ensures r.chances.Get(a) == chance
    ensures forall b: BotAction :: b != a ==> r.chances.Get(b) == c.chances.Get(b)
    ensures r.enable == c.enable && r.disable == c.disable
    ensures r.onlyInteractWithThisRole == c.onlyInteractWithThisRole
    ensures WellFormed(c) && chance >= 2 ==> WellFormed(r)
  {
    c.(chances := c.chances.Set(a, chance))
  }

  /** cmdSetGlobal's change (index.ts:94): only enable[k]. */
  function WithEnable(c: ServerConfiguration, k: EnableKey, v: bool): (r: ServerConfiguration)
    ensures r.enable.Get(k) == v
    ensures forall j: EnableKey :: j != k ==> r.enable.Get(j) == c.enable.Get(j)
    ensures r.chances == c.chances && r.disable == c.disable
    ensures r.onlyInteractWithThisRole == c.onlyInteractWithThisRole
  {
    c.(enable := c.enable.Set(k, v))
  }

  /** cmdSetOnlyInteractWith's change (index.ts:121): only the role restriction. */
  function WithRole(c: ServerConfiguration, role: string): (r: ServerConfiguration)
    ensures r.onlyInteractWithThisRole == Some(role)
    ensures r.enable == c.enable && r.chances == c.chances && r.disable == c.disable
  {
    c.(onlyInteractWithThisRole := Some(role))
  }

  // ------------------------------------------------------ disable lists

  /** list.filter(id => id !== channel): every occurrence of the channel goes, the rest stays. */
  function RemoveAll(xs: seq<string>, channel: string): (r: seq<string>)
    ensures channel !in r
    ensures forall x :: x != channel ==> multiset(r)[x] == multiset(xs)[x]
    ensures |r| <= |xs|
    decreases |xs|
  {
    if xs == [] then []
    else
      var rest := RemoveAll(xs[1..], channel);
      assert xs == [xs[0]] + xs[1..];
      if xs[0] == channel then rest else [xs[0]] + rest
  }

  /** The filter keeps the order of the other ids: it maps a concatenation piecewise. */
  lemma {:induction false} RemoveAllConcat(xs: seq<string>, ys: seq<string>, channel: string)
    ensures RemoveAll(xs + ys, channel) == RemoveAll(xs, channel) + RemoveAll(ys, channel)
    decreases |xs|
  {
    if xs == [] {
      assert xs + ys == ys;
    } else {
      assert (xs + ys)[0] == xs[0];
      assert (xs + ys)[1..] == xs[1..] + ys;
      RemoveAllConcat(xs[1..], ys, channel);
    }
  }

  /** A list without the channel is left as it is. */
  lemma {:induction false} RemoveAllAbsent(xs: seq<string>, channel: string)
    requires channel !in xs
    ensures RemoveAll(xs, channel) == xs
    decreases |xs|
  {
    if xs != [] {
      RemoveAllAbsent(xs[1..], channel);
      assert xs == [xs[0]] + xs[1..];
    }
  }

  /** One list's change in cmdSetDisableInHere (index.ts:107-108, 111-112):
      push the channel id, or filter it out. */
  function ToggleChannel(xs: seq<string>, channel: string, disable: bool): (r: seq<string>)
    ensures disable ==> |r| == |xs| + 1 && r[..|xs|] == xs && r[|xs|] == channel
    ensures !disable ==> channel !in r
    ensures !disable ==> forall x :: x != channel ==> multiset(r)[x] == multiset(xs)[x]
  {
    if disable then xs + [channel] else RemoveAll(xs, channel)
  }

  /** Disabling and then enabling again in a channel that was not disabled restores the list. */
  lemma ReenableRestores(xs: seq<string>, channel: string)
    requires channel !in xs
    ensures ToggleChannel(ToggleChannel(xs, channel, true), channel, false) == xs
  {
    RemoveAllConcat(xs, [channel], channel);
    RemoveAllAbsent(xs, channel);
    assert RemoveAll([channel], channel) == [];
  }

  /** Disabling is not deduplicated: each repetition adds one more copy of the channel. */
  lemma DisableRepeats(xs: seq<string>, channel: string)
    ensures multiset(ToggleChannel(ToggleChannel(xs, channel, true), channel, true))[channel]
            == multiset(xs)[channel] + 2
  {
    var once := ToggleChannel(xs, channel, true);
    assert once == xs + [channel];
    assert ToggleChannel(once, channel, true) == xs + [channel] + [channel];
  }

  /** Whether a disable command for key k touches the list of action a: "global" fans out to all. */
  predicate Covers(k: EnableKey, a: BotAction) {
    k == Global || k == Action(a)
  }

  /** cmdSetDisableInHere's change (index.ts:104-113): the covered lists are toggled,
      nothing else changes. */
  function WithDisableInHere(c: ServerConfiguration, k: EnableKey, channel: string, disable: bool): (r: ServerConfiguration)
    ensures forall a: BotAction ::
              r.disable.Get(a) == if Covers(k, a) then ToggleChannel(c.disable.Get(a), channel, disable)
                                  else c.disable.Get(a)
    ensures r.enable == c.enable && r.chances == c.chances
    ensures r.onlyInteractWithThisRole == c.onlyInteractWithThisRole
  {
    match k
    case Action(a) => c.(disable := c.disable.Set(a, ToggleChannel(c.disable.Get(a), channel, disable)))
    case Global =>
      var d := c.disable;
      c.(disable := PerAction(
        ToggleChannel(d.insults, channel, disable),
        ToggleChannel(d.reactions, channel, disable),
        ToggleChannel(d.timeouts, channel, disable),
        ToggleChannel(d.nicknameChanger, channel, disable),
        ToggleChannel(d.muteMembers, channel, disable)))
  }

  /** After `disable-in-here` with disable=false the channel is in no covered list, and after
      disable=true it is in every covered list. */
  lemma DisableInHereMembership(c: ServerConfiguration, k: EnableKey, channel: string, disable: bool, a: BotAction)
    requires Covers(k, a)
    ensures channel in WithDisableInHere(c, k, channel, disable).disable.Get(a) <==> disable
  {
    var r := WithDisableInHere(c, k, channel, disable).disable.Get(a);
    if disable {
      assert r[|c.disable.Get(a)|] == channel;
    }
  }
}
