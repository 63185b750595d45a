# Insult bot core in Dafny

A model of the two parts of this chat bot that have real logic.

The first part is the **template randomiser** in `randomize.ts`. It works in these steps:

- It picks one template from a list.
- It rewrites every `{…}` group, and then every `[…]` group. Each group becomes one of its `|`-separated options. An option may end in a `*n` run-repeat suffix.
- It leaves a group with one option and no `*` as it is, brackets included.
- Last, it applies one of four casing styles.

The scan that the source does with the regexes `/\{(.*?)}/g` and `/\[(.*?)]/g` is modelled as an explicit left-to-right tokenizer (`Randomize.Tokenize`). It is tied to an independent description of the regex segmentation (`Randomize.Canonical`) in both directions.

The second part is the **per-guild configuration store and action gate** in `index.ts`, with the records of `types.ts`. It consists of these pieces:

- `Bot.ConfigStore` is a class that holds the `serverConfigs` dictionary as a `map<string, ServerConfiguration>`.
- Its methods are `addServerIfNotExists`, the four writes of the `set` command handlers, the interaction handler and the message handler.
- `AddServerIfNotExists` and the four writes are tied to pure functions of module `Config`. `ApplyCommand` is tied to `Bot.CommandEffect`, and `HandleInteraction` to `Bot.AfterInteraction`. `OnMessage` is tied to `Resolver.FiredActions`.
- The message handler's firing decision is the pure function `Resolver.FiredActions`.
- The command-name dispatch is `Bot.Dispatch`.

The helpers of `utilities.ts` are in module `Utilities`.

Every `Math.random()` call is a real in `[0, 1)`, read from a stream `rand: nat -> real` at a cursor. The randomiser's functions return the position after the draws they used, in the source's call order. `Math.floor(Math.random() * n)` is `Utilities.Draw`. The message handler's draws are one roll per action.

Modules:

- `Utilities`: utilities.ts, `Option`, draws.
- `Types`: types.ts.
- `Strings`: split/join, lastIndexOf, the digit test and parseInt, repeat, ASCII case.
- `Randomize`: randomize.ts.
- `Config`: the record updates of index.ts as values.
- `Resolver`: the MessageCreate firing decision.
- `Bot`: the store class, dispatch and the interaction handler.

Where the code differs from what one might expect of the bot, the model follows the code:

- **Per-action enable flags are never read when firing.** Only `enable.global` is consulted (index.ts:139), so `set global action=insults enable=false` has no effect on firing. `Resolver.ActionEnableFlagsIgnored` states this.
- **Disable lists are not deduplicated.** Repeating `disable-in-here` appends the channel again (index.ts:107, 111). `Config.DisableRepeats` states this. Disabling with `disable=false` removes every copy.
- **The hit value is 1.** An action fires when `Math.floor(r * N) === 1`, which is a window of width `1/N` at `[1/N, 2/N)` (`Resolver.FiringWindow`). A denominator of 1 only yields 0, so such an action never fires (`Resolver.SmallChanceNeverFires`).
- **JavaScript truthiness.** An empty role id counts as no restriction (index.ts:145). An empty group or subcommand name adds no dash (utilities.ts:15).
- **A guild key from the channel.** Interactions outside a guild are keyed by their channel id (index.ts:38). Messages outside a guild do nothing (index.ts:135).

## Model

| member | source | states |
|---|---|---|
| Utilities.Draw | utilities.ts:17 | `Math.floor(r*n)` for a draw `r` in [0,1) lies in `[0, n)` for positive `n` and is 0 for `n = 0` |
| Utilities.DrawHitsInterval | index.ts:147 | outcome `k` of `Math.floor(r*n)` is drawn exactly for `r` in `[k/n, (k+1)/n)`: every outcome has an interval of width 1/n |
| Utilities.EnOrDis | utilities.ts:7 | the result is "en" exactly when the flag is true and "dis" exactly when it is false |
| Utilities.Dash | utilities.ts:15 | the result is empty exactly when the value is null or "" (falsy); otherwise it is "-" followed by the value |
| Utilities.Pick | utilities.ts:17 | for a non-empty list, the picked element is a member of it, namely the one at index `floor(r*\|xs\|)` |
| Utilities.PickReachesEvery | utilities.ts:17 | every index `k` of the list is picked by the draw `k/\|xs\|`, so every element can be chosen |
| Types.ActionIndex | types.ts:1 | every action has a position in the list of the five kinds |
| Types.AllActionsListsEachOnce | types.ts:1 | the five kinds are listed once each: the list holds every action and no duplicates |
| Types.ParseAction | types.ts:1 | a string parses as an action exactly when it is the key of one of the five kinds, and it parses back to that kind |
| Types.ParseEnableKey | types.ts:3 | a string parses as an enable key exactly when it is "global" or an action key |
| Types.NamesRoundTrip | types.ts:1-3 | every enable key's name parses back to that key, and "global" is not an action |
| Types.PerAction.Set | types.ts:4-5 | writing entry `a` of a per-action table changes entry `a` and keeps every other entry |
| Types.Enable.Set | types.ts:3 | writing one key of the enable table changes that key and keeps the other five |
| Types.PerActionExt | types.ts:4-5 | two per-action tables that agree on every action are equal: a table has exactly the five entries |
| Strings.Split | randomize.ts:11 | `split('\|')` gives at least one piece, no piece contains the separator, and there is one piece exactly when the separator is absent |
| Strings.Join | randomize.ts:11 | the inverse of `split`: one part is returned as it is; with more, the first part is followed by the separator |
| Strings.JoinSplit | randomize.ts:11 | joining the pieces of a split with the separator gives back the string |
| Strings.SplitJoin | randomize.ts:11 | splitting a join of separator-free pieces gives back the pieces |
| Strings.LastIndexOf | randomize.ts:17 | the result is -1 (None) exactly when the character is absent; otherwise it is an occurrence with none after it |
| Strings.DecimalString | randomize.ts:20 | every bound `n` can be written in a template: its decimal spelling is a non-empty digit string, so `*n` passes the `/^\d+$/` test |
| Strings.ParseDecimal | randomize.ts:22 | `parseInt(s, 10)` of `k` decimal digits is a number below `10^k` |
| Strings.ParseDecimalString | randomize.ts:22 | `parseInt` reads back the decimal spelling of every number |
| Strings.ParseDecimalLeadingZero | randomize.ts:22 | a leading zero does not change the value that `parseInt` reads |
| Strings.Repeat | randomize.ts:25 | repeating "" gives ""; repeating one character `k` times gives `k` copies of it |
| Strings.UpperChar | randomize.ts:37 | each of 'a'..'z' becomes the matching letter of 'A'..'Z' (its code minus 32); every other character is kept; the result is never a lower-case letter |
| Strings.LowerChar | randomize.ts:38 | each of 'A'..'Z' becomes the matching letter of 'a'..'z' (its code plus 32); every other character is kept; the result is never an upper-case letter |
| Strings.CaseFolds | randomize.ts:44 | the upper and lower forms of a character have the same lower-case form |
| Strings.ToUpper | randomize.ts:37 | `toUpperCase` keeps the length and maps each character to its upper form |
| Strings.ToLower | randomize.ts:38 | `toLowerCase` keeps the length and maps each character to its lower form |
| Strings.CaseMappingsFold | randomize.ts:37-38 | upper- and lower-casing a string keep it the same ignoring case |
| Randomize.Tokenize | randomize.ts:33 | the scan yields no more tokens than characters, and every group's inner text is on one line and holds no close bracket |
| Randomize.FindClose | randomize.ts:33 | the lazy `(.*?)` stops at the first close bracket, which has no line terminator before it; when no such bracket exists, every close bracket comes after a line terminator |
| Randomize.RenderTokenize | randomize.ts:33 | the tokens of a scan spell out the scanned text exactly: text outside groups is copied, and groups are whole matches |
| Randomize.TokenizeCanonical | randomize.ts:33 | the scan yields the regex segmentation: each group is a shortest one-line match, and an open bracket is left as text only when no close bracket follows it on its line |
| Randomize.CanonicalIsTokenize | randomize.ts:33 | that segmentation is unique: any token list of that shape is what the scan of its text produces |
| Randomize.TokenizeGroup | randomize.ts:33 | an open bracket with a one-line inner text and a close bracket is one group, and scanning resumes after it |
| Randomize.TokenizeLit | randomize.ts:33 | a character that opens no match is one literal, and scanning resumes at the next character |
| Randomize.ExpandRun | randomize.ts:17-27 | without digits after the last `*`, the option is kept as it is and no draw is used. With digits spelling `n`, the result is `beforeStar` followed by `k` copies of its last character, where `0 <= k < n` is the next draw; an empty `beforeStar` gives "" |
| Randomize.RunShape | randomize.ts:24-25 | `beforeStar + lastChar.repeat(k)` starts with `beforeStar`, has length `\|beforeStar\| + k`, and every added character is the last one of `beforeStar` |
| Randomize.ReplaceOption | randomize.ts:10-30 | a group with one option and no `*` is returned verbatim with its brackets and uses no draw; otherwise the option at index `floor(r*\|options\|)` is chosen and star-expanded, and its brackets are gone |
| Randomize.ChosenOptionVerbatim | randomize.ts:11-15 | when no option has digits after a `*`, the replacement is one of the options as written (a lone option with a `*` loses its brackets), using exactly one draw |
| Randomize.EvalToken | randomize.ts:33 | a literal character is copied without drawing; an escape group keeps its text without drawing; any other group uses at least one draw |
| Randomize.Eval | randomize.ts:33 | replacing the groups of a token list left to right never moves the draw cursor back |
| Randomize.Pass | randomize.ts:33 | one `.replace(regex, replaceOption)` pass consumes draws forward only |
| Randomize.EvalEscapes | randomize.ts:13 | in a token list whose groups are all escapes, replacement is the identity on its text and uses no draw |
| Randomize.PassKeepsEscapes | randomize.ts:13 | a pass over a text whose groups are all escapes returns the text unchanged, brackets included |
| Randomize.NoGroupsWithoutOpen | randomize.ts:33 | a text with no open bracket scans into literals only |
| Randomize.PassWithoutOpen | randomize.ts:33 | a pass over a text with no open bracket returns it unchanged and uses no draw |
| Randomize.SelectTemplate | randomize.ts:8 | a string template is used as it is without a draw; from a list, one draw picks the entry at index `floor(r*\|list\|)` |
| Randomize.Expand | randomize.ts:8-33 | the choice and both passes consume draws forward only; choosing from a list uses at least one draw |
| Randomize.ExpandPlainText | randomize.ts:8 | a template string with no `{` and no `[` comes out of both passes unchanged |
| Randomize.CaseByDraw | randomize.ts:44 | a draw below 1/2 gives the lower form of the character and a draw of 1/2 or more the upper form |
| Randomize.RandomCase | randomize.ts:42-46 | randomlyCase keeps the length; each character becomes its upper or its lower form, so the text is the same ignoring case |
| Randomize.RandomlyCase | randomize.ts:42-46 | the in-place loop over the character array computes RandomCase: same length, and the same text ignoring case |
| Randomize.Style | randomize.ts:34-39 | roll 0 gives randomlyCase, 1 upper case, 2 lower case and any other roll the text itself; every style keeps the length and the text ignoring case |
| Randomize.Randomize | randomize.ts:7-40 | the choice, the `{}` pass and then the `[]` pass on its output are followed by one style roll. The output has the expansion's length and equals it ignoring case |
| Config.DefaultConfiguration | index.ts:42-66 | a fresh record has every enable flag on except timeouts, chances 20/20/500/50/200, every disable list empty and no role; every chance is at least 2 |
| Config.WithServer | index.ts:39-67 | a record is added only under an absent key; existing records and all other keys are kept |
| Config.WithServerIdempotent | index.ts:39-40 | adding a server twice is the same as adding it once |
| Config.WithChance | index.ts:85 | only `chances[action]` changes; chances of at least 2 stay at least 2 |
| Config.WithEnable | index.ts:94 | only `enable[key]` changes |
| Config.WithRole | index.ts:121 | only the role restriction changes |
| Config.RemoveAll | index.ts:108 | the filter leaves the channel in no place, keeps every other id as often as before, and never grows the list |
| Config.RemoveAllConcat | index.ts:108 | the filter works piecewise over a concatenation, so the other ids keep their order |
| Config.RemoveAllAbsent | index.ts:108 | the filter leaves a list without the channel unchanged |
| Config.ToggleChannel | index.ts:107-108 | disabling appends the channel at the end and keeps the list before it; enabling removes every copy of the channel and keeps the other ids |
| Config.ReenableRestores | index.ts:107-108 | disabling and then re-enabling a channel that was not listed restores the list |
| Config.DisableRepeats | index.ts:107 | disabling twice leaves two more copies of the channel: there is no deduplication |
| Config.WithDisableInHere | index.ts:104-113 | "global" toggles the channel in all five lists and an action in its own list; no other list or field changes |
| Config.DisableInHereMembership | index.ts:104-113 | afterwards, the channel is in a covered list exactly when `disable` was true |
| Resolver.RoleAllows | index.ts:145 | no role restriction, or an empty one, lets every author through; under a truthy restriction, an author passes exactly when they are a member holding that role |
| Resolver.PassesGates | index.ts:139-145 | passing the gates needs an author other than the bot and `enable.global` on; without a truthy role restriction those two are all it needs |
| Resolver.Hits | index.ts:142-163 | an action can hit only where it is not disabled and only with a denominator of at least 2 |
| Resolver.FiredActions | index.ts:139-163 | nothing fires unless the author is not the bot, `enable.global` is on and the role gate passes; past the gates, each action fires exactly when the channel is not in its disable list and its roll is 1 |
| Resolver.GlobalDisableDominates | index.ts:139 | with `enable.global` off, nothing fires |
| Resolver.OwnMessagesIgnored | index.ts:139 | the bot's own messages fire nothing |
| Resolver.RoleRestrictionBlocks | index.ts:145 | under a truthy role restriction, an author without that role, or with no member, fires nothing |
| Resolver.FiringWindow | index.ts:142-163 | past the gates, an action with denominator N fires exactly for draws in `[1/N, 2/N)` |
| Resolver.DisabledChannelBlocks | index.ts:142 | an action disabled in the channel never fires there |
| Resolver.SmallChanceNeverFires | index.ts:147-163 | a denominator below 2 never fires |
| Resolver.ActionEnableFlagsIgnored | index.ts:139-163 | changing a per-action enable flag changes nothing about firing |
| Resolver.ActionsIndependent | index.ts:147-163 | whether an action fires depends on its own roll and not on the rolls of the others |
| Resolver.DisableInsultsInOneChannel | index.ts:42-66 | after disabling insults in channel C1 on a fresh record, no insult fires in C1; elsewhere insults fire by the default 1-in-20 roll |
| Bot.GetGuildId | index.ts:38 | the key is the guild id, or the channel id when there is no guild |
| Bot.CommandName | index.ts:173 | the name starts with the root command name; with no group and no subcommand it is that name, and with a subcommand `sub` only it is `name-sub` |
| Bot.SetNamesDistinct | index.ts:175-180 | the four case names are pairwise different |
| Bot.Dispatch | index.ts:175-180 | a name dispatches only when it is `set-` followed by that command's subcommand name |
| Bot.DispatchExactly | index.ts:175-180 | a name dispatches to a command exactly when it is that command's case name; every other name is a no-op |
| Bot.SubcommandsDispatch | index.ts:173-180 | `set` with an absent or empty group and subcommand `sub` gives the name `set-sub`, which reaches the handler of `sub` |
| Bot.CommandEffect | index.ts:81-125 | each command changes only its own field of the record (chances, enable, disable lists or role); no chance drops below 2; an action string that is no key of the record changes nothing |
| Bot.AfterInteraction | index.ts:168-181 | a non-chat-input interaction changes nothing; otherwise the guild key is added, and no record of another key changes |
| Bot.UnknownCommandOnlyAddsServer | index.ts:171-180 | an unknown command name only adds the guild's default record |
| Bot.UnknownKeyOnlyAddsServer | index.ts:81-113 | an action string that is no key of the record, such as `setVCStatus`, makes `set global`, `set chance` and `set disable-in-here` only add the guild's default record |
| Bot.SetChanceChangesOneEntry | index.ts:81-86 | `set chance` changes `chances[action]` of its own guild and keeps every other field of that record |
| Bot.SetGlobalDefaults | index.ts:90-95 | `set global` with no options makes the guild's record WithEnable of it with key "global" and value true: action defaults to "global" and enable to true |
| Bot.SetGlobalSets | index.ts:90-95 | `set global action:k` makes the guild's record WithEnable of it at `k`, with the given enable value or true when absent |
| Bot.SetDisableInHereDefaults | index.ts:99-113 | `set disable-in-here` with only an action disables it in the channel the command came from: channel defaults to that channel and disable to true |
| Bot.SetDisableInHereSets | index.ts:99-113 | `set disable-in-here` with an action, a channel and a disable flag gives WithDisableInHere of the guild's record with those values |
| Bot.SetOnlyInteractWithSetsRole | index.ts:118-121 | `set only-interact-with role:r` makes `r` its guild's role restriction |
| Bot.ConfigStore.constructor | index.ts:33 | the store starts empty |
| Bot.ConfigStore.AddServerIfNotExists | index.ts:39-67 | the store becomes WithServer of the old store, and every chance stays at least 2 |
| Bot.ConfigStore.SetChanceOf | index.ts:85 | only the guild's record changes, by WithChance, and every chance stays at least 2 |
| Bot.ConfigStore.SetEnable | index.ts:94 | only the guild's record changes, by WithEnable |
| Bot.ConfigStore.SetDisabledIn | index.ts:104-113 | for "global", the in-place loop over the five lists ends with WithDisableInHere of the guild's record; for an action this holds for its one list |
| Bot.ConfigStore.SetRole | index.ts:121 | only the guild's record changes, by WithRole |
| Bot.ConfigStore.ApplyCommand | index.ts:81-125 | the handler's option reading and write change only the guild's record, by CommandEffect, and every chance stays at least 2 |
| Bot.ConfigStore.HandleInteraction | index.ts:168-181 | the store becomes AfterInteraction of the old store, and every chance stays at least 2 |
| Bot.ConfigStore.OnMessage | index.ts:134-166 | a message outside a guild changes nothing and fires nothing; otherwise the guild's record is added if absent, and the fired actions are FiredActions on that record |

## Left out

- Network I/O is not modelled. That covers the chat client, event subscription, replies, reactions, timeouts, nickname changes, the ready announcement and both command-registration scripts. Only each handler's effect on `serverConfigs` and the firing decision are modelled.
- Files are not modelled: word-list loading, the JSON load and save of the store, and the JSON round trip. The model's store starts empty.
- `Math.random` itself is a parameter (`rand`, or one roll per action). Claims about its distribution are not modelled. `Utilities.DrawHitsInterval` gives the width of each outcome's interval of draws instead.
- The word lists and the templates are parameters, not file contents.
- The messages the handlers reply with are not modelled. They are output and do not affect the store.
- Case mapping covers ASCII letters only. Every other character is left unchanged. Unicode case mapping can change length (ß becomes SS) and is not modelled.
- `Strings.ParseDecimal`: does not model parseInt's loss of precision past 2^53. Nor does `Utilities.Draw` model floating-point rounding of `r * n`; both are exact here.
- Strings are sequences of characters. UTF-16 surrogate pairs, which `split('')` and `slice(-1)` would break apart, are not modelled.
- Keys a record has no entry for are not modelled.
  - The command surface offers the action `setVCStatus`, and `set chance` accepts "global" as a string.
  - For `set global` and `set chance`, the source adds an extra key to the record that nothing reads. For `disable-in-here` (index.ts:111), it throws.
  - The model's record holds only the modelled keys, so such a command leaves it unchanged (`Bot.UnknownKeyOnlyAddsServer`).
- Randomize.SelectTemplate: requires a non-empty template list (`Randomize.WellFormedTemplate`). On an empty list the source reads `template[0]`, which is undefined, and `.replace` throws (randomize.ts:8, 33).
- Randomize.ExpandRun: does not model the RangeError that `lastChar.repeat` (randomize.ts:25) throws past the maximum string length. It returns the long string instead, because strings have no maximum length here.
- Guild keys are assumed to be platform ids. `guildId in serverConfigs` (index.ts:40) is also true for names inherited from `Object.prototype`, such as "constructor"; the model's `map` has no inherited keys.
- The declared minimum `chance >= 2` is enforced by the command surface, not by index.ts:85. The model takes it as a precondition (`Bot.ValidOptions`).
- When a required option is missing, the source's handler throws before it writes. The model leaves the store unchanged in that case.
- Async interleaving of handlers and last-write-wins races on the store are not modelled. Each handler runs to completion.
- Utilities.Pick: requires a non-empty list. On `[]` the source does not throw: `Math.floor(Math.random() * 0)` is 0, so it returns `undefined` (utilities.ts:17). Then `randomize(undefined)` throws at randomize.ts:8.
  - The insult is built before any `try` or `awaitSafe` (index.ts:147, 156). So an exception while building it, including the `repeat` RangeError of `Randomize.ExpandRun`, ends the message handler.
  - The actions after it in that message are then never checked. `Resolver.FiredActions` treats the five actions as independent and does not show this.
- The draw order of the message handler is not modelled. In index.ts:147-163, `isEnabled(a) && Math.floor(Math.random() * …)` short-circuits, so a disabled action takes no draw. When an insult fires, the draws of `pick` and `randomize` come between the insults roll and the reactions roll. The model takes one independent roll per action instead (`Resolver.ValidRolls`).
- The mute-members branch (index.ts:163-165) has an empty body. Only whether it fires is modelled.
- The effects fired actions trigger are not modelled: insult text, reaction emoji, nickname choice and the timeout call. `Randomize.Randomize` and `Utilities.Pick` model the text generation they would use.
