// The configuration record of types.ts: the closed set of bot actions and the
// per-guild ServerConfiguration with its three per-action tables.
module Types {
  import opened Utilities

  /** BotActions (types.ts:1): exactly five kinds. */
  datatype BotAction = Insults | Reactions | Timeouts | NicknameChanger | MuteMembers

  /** The keys of `enable` (types.ts:3): the five kinds plus "global". */
  datatype EnableKey = Global | Action(action: BotAction)

  /** The five kinds in the order their keys are declared in a fresh record. */
  const AllActions: seq<BotAction> := [Insults, Reactions, Timeouts, NicknameChanger, MuteMembers]

  /** Where an action stands in AllActions. */
  function ActionIndex(a: BotAction): (i: nat)
    ensures i < |AllActions| && AllActions[i] == a
  {
    match a
    case Insults => 0
    case Reactions => 1
    case Timeouts => 2
    case NicknameChanger => 3
    case MuteMembers => 4
  }

  lemma AllActionsListsEachOnce()
    ensures forall a: BotAction :: a in AllActions
    ensures forall i, j :: 0 <= i < j < |AllActions| ==> AllActions[i] != AllActions[j]
  {
    forall a: BotAction ensures a in AllActions {
      assert AllActions[ActionIndex(a)] == a;
    }
  }

  /** The string value JavaScript uses as the record key of an action. */
  function ActionName(a: BotAction): string {
    match a
    case Insults => "insults"
    case Reactions => "reactions"
    case Timeouts => "timeouts"
    case NicknameChanger => "nicknameChanger"
    case MuteMembers => "muteMembers"
  }

  /** The string literal type BotActions: a string is an action exactly when it is one of five names. */
  function ParseAction(s: string): (r: Option<BotAction>)
    ensures r.Some? ==> ActionName(r.value) == s
    ensures (exists a: BotAction :: ActionName(a) == s) ==> r.Some?
  {
    if s == "insults" then Some(Insults)
    else if s == "reactions" then Some(Reactions)
    else if s == "timeouts" then Some(Timeouts)
    else if s == "nicknameChanger" then Some(NicknameChanger)
    else if s == "muteMembers" then Some(MuteMembers)
    else None
  }

  function EnableKeyName(k: EnableKey): string {
    match k
    case Global => "global"
    case Action(a) => ActionName(a)
  }

  /** BotActions | "global": "global" is its own key and never an action name. */
  function ParseEnableKey(s: string): (r: Option<EnableKey>)
    ensures r.Some? ==> EnableKeyName(r.value) == s
    ensures (exists k: EnableKey :: EnableKeyName(k) == s) ==> r.Some?
  {
    if s == "global" then Some(Global)
    else match ParseAction(s)
      case Some(a) => Some(Action(a))
      case None => None
  }

  lemma {:induction false} NamesRoundTrip(k: EnableKey)
    ensures ParseEnableKey(EnableKeyName(k)) == Some(k)
    ensures k.Action? ==> ParseAction(EnableKeyName(k)) == Some(k.action)
    ensures ParseAction("global") == None
  {
    match k
    case Global =>
    case Action(a) =>
      assert ParseAction(ActionName(a)).Some?;
  }

  /** A record with one entry per action, as `Record<BotActions, T>`:
      there is no "global" entry (types.ts:4-5). */
  datatype PerAction<T> = PerAction(insults: T, reactions: T, timeouts: T, nicknameChanger: T, muteMembers: T)
  {
    function Get(a: BotAction): T {
      match a
      case Insults => insults
      case Reactions => reactions
      case Timeouts => timeouts
      case NicknameChanger => nicknameChanger
      case MuteMembers => muteMembers
    }

    /** `record[a] = v`: entry a becomes v and every other entry is kept. */
    function Set(a: BotAction, v: T): (r: PerAction<T>)
      ensures r.Get(a) == v
      ensures forall b: BotAction :: b != a ==> r.Get(b) == Get(b)
    {
      match a
      case Insults => this.(insults := v)
      case Reactions => this.(reactions := v)
      case Timeouts => this.(timeouts := v)
      case NicknameChanger => this.(nicknameChanger := v)
      case MuteMembers => this.(muteMembers := v)
    }
  }

  /** Two tables are equal when they agree on every action. */
  lemma PerActionExt<T>(p: PerAction<T>, q: PerAction<T>)
    requires forall a: BotAction :: p.Get(a) == q.Get(a)
    ensures p == q
  {
    assert p.Get(Insults) == q.Get(Insults);
    assert p.Get(Reactions) == q.Get(Reactions);
    assert p.Get(Timeouts) == q.Get(Timeouts);
    assert p.Get(NicknameChanger) == q.Get(NicknameChanger);
    assert p.Get(MuteMembers) == q.Get(MuteMembers);
  }

  /** `Record<BotActions | "global", boolean>` (types.ts:3). */
  datatype Enable = Enable(global: bool, actions: PerAction<bool>)
  {
    function Get(k: EnableKey): bool {
      match k
      case Global => global
      case Action(a) => actions.Get(a)
    }

    function Set(k: EnableKey, v: bool): (r: Enable)
      ensures r.Get(k) == v
      ensures forall j: EnableKey :: j != k ==> r.Get(j) == Get(j)
    {
      match k
      case Global => this.(global := v)
      case Action(a) => this.(actions := actions.Set(a, v))
    }
  }

  /** ServerConfiguration (types.ts:2-7); the role is a role id or null. */
  datatype ServerConfiguration = ServerConfiguration(
    enable: Enable,
    chances: PerAction<int>,
    disable: PerAction<seq<string>>,
    onlyInteractWithThisRole: Option<string>)
}
