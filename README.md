# Team-kill plugin: player records and level table

A Dafny model of two parts of the big-brother-bot team-kill (`tk`) plugin.

- **`TkInfo`, the per-player team-kill record** (module `TkRecord`, file `tk_info.dfy`).
  A class with the record's own fields:
  - `attacked`: the victims this player has hit.
  - `attackers`: the points each attacker owes this player.
  - `grudged`: the set of players this player holds a grudge against.
  - `warnings`: one warning per victim.
  - `lastAttacker`: the last player who hurt this one.

  The mutators `Damage`, `Damaged`, `Grudge`, `Forgive` and `Forgiven` update these fields in place. Each states its whole new state and what the queries `GetAttackerPoints` and `IsGrudged` then answer. A player's `points` is not a sum over their own `attackers`. It is the sum, over every victim in `attacked`, of what that victim's record says this player owes them. The plugin looks each victim's record up with `getClientTkInfo`, so the model passes a registry from cid to record (`Points(registry)`). The lemmas about `SumOwed` show this sum is well defined and additive. `Damage` and `Forgiven` state how `points` changes when a victim is added or removed. The methods of `TkScenarios` (`tk_scenarios.dfy`) replay the record's test sequences step by step and assert each expected value, for example 45 and then 45 + 21 points.

- **`load_config_for_levels`, the level table** (modules `Text`, `Levels`, `LevelMessages`, `LevelScenarios`).
  - The `levels` option of section `settings` is split on commas.
  - Each token is read as a level number the way Python's `int()` reads the tokens these tests use: surrounding whitespace, an optional sign, then decimal digits.
  - For each level, section `level_<N>` supplies `kill_multiplier`, `damage_multiplier` and `ban_length`.
  - Each token that fails logs exactly one error, in token order: an invalid level number, a missing section, a missing option, or an invalid value. Within a level, options are read in the order kill, damage, ban, and the first problem is the only one logged for that level.
  - If anything was logged, the call fails with a value error. Otherwise it returns the table.
  - A configuration without the `levels` option fails with the configuration's missing-option error and logs nothing.

  `Levels.LoadConfigForLevels` is the loop. It is proved equal to the specification function `Levels.Load`. Lemmas about `Load` state which errors are logged, how many and in what order. They also state that a valid configuration loads, and what the table's keys and entries are. `LevelScenarios` proves the outcome of every configuration of the level-loading tests (`tests/plugins/test_tk.py:134-396`). `LevelMessages` proves each logged text character for character.

Both halves rely only on `tests/plugins/test_tk.py`; `b3/plugins/tk.py` is not part of this model. Where the tests leave a choice open, the model takes one reading; the choices that matter are listed under "Left out".

## Model

| member | source | states |
|---|---|---|
| TkRecord.TkInfo.constructor | tests/plugins/test_tk.py:460-464 | a fresh record has no last attacker, no attackers, no victims, owes nothing to anyone, and its points are 0 whatever the registry |
| TkRecord.TkInfo.Damage | tests/plugins/test_tk.py:466-469 | the victim is marked as hit (true) whatever the points; attackers are untouched; a new victim raises points by what that victim's record says this player owes |
| TkRecord.TkInfo.Damaged | tests/plugins/test_tk.py:471-528 | the attacker's points grow by the damage, starting from 0 when absent; every other attacker's points are unchanged; the attacker becomes the last attacker |
| TkRecord.TkInfo.Grudge | tests/plugins/test_tk.py:485-491 | the cid joins the grudged set and is grudged afterwards; no other cid changes |
| TkRecord.TkInfo.GetAttackerPoints | tests/plugins/test_tk.py:493-500 | the stored points when the attacker has an entry, 0 when it has none |
| TkRecord.SumOwedRemove | tests/plugins/test_tk.py:502-522 | the points sum does not depend on the order victims are taken in: any victim's share can be split off first |
| TkRecord.SumOwedAgree | tests/plugins/test_tk.py:502-522 | the points sum depends only on what is owed to the victims summed over |
| TkRecord.SumOwedAdd | tests/plugins/test_tk.py:515-522 | adding a new victim holding v against the player adds exactly v to the sum (45, then 45 + 21) |
| TkRecord.TkInfo.Forgive | tests/plugins/test_tk.py:530-552 | the forgiven attacker's points become 0, every other attacker's points stay, and the forgiven attacker is no longer the last attacker |
| TkRecord.TkInfo.Forgiven | tests/plugins/test_tk.py:554-564 | the victim is removed from attacked; its warning, if any, is saved once marked inactive and is no longer held; points drop by that victim's share |
| Text.Split | tests/plugins/test_tk.py:171-203 | comma splitting never yields no tokens, yields no token containing a comma, and joins back to the original text |
| Text.SplitJoin | tests/plugins/test_tk.py:171-203 | comma-free tokens survive joining and splitting again |
| Text.NatToString | tests/plugins/test_tk.py:223-249 | the decimal text of a level number is non-empty digits whose value is the number, without leading zeros |
| Text.ParseIntOfIntToString | tests/plugins/test_tk.py:223-249 | reading back the decimal text of any integer gives that integer, which ties a level number to its section name |
| Text.ParseInt | tests/plugins/test_tk.py:373-396 | when reading an integer fails, the reason is Python's "invalid literal for int() with base 10: " followed by the quoted input |
| Text.ParseIntDigits | tests/plugins/test_tk.py:149-169 | a plain digit string reads as its decimal value |
| Text.ParseIntBlank | tests/plugins/test_tk.py:373-396 | empty or blank text is not an integer |
| Text.ParseIntForeignChar | tests/plugins/test_tk.py:205-221 | a character that is not a digit, whitespace or sign makes reading fail wherever it stands |
| Levels.GetFloat | tests/plugins/test_tk.py:251-371 | a missing option is reported as missing in its section; a value float() rejects is reported as invalid with float()'s reason; a present value that converts is the result |
| Levels.GetInt | tests/plugins/test_tk.py:299-396 | a missing option is reported as missing in its section; a value int() rejects is reported as invalid with int()'s reason; a present value that reads as an integer is the result |
| Levels.ReadLevel | tests/plugins/test_tk.py:251-396 | options are read kill, damage, ban: the first missing option or malformed value is the level's one error; the read succeeds exactly when all three are present and convert, and then gives the entry of the three converted values |
| Levels.TokenResult | tests/plugins/test_tk.py:205-249 | a token that is not an integer is an invalid level number; a parsed token whose section is missing or broken gets that section's error; a token loads exactly when it reads as a level whose section exists and converts, and then carries that level's entry |
| Levels.CollectTable | tests/plugins/test_tk.py:171-203 | the table holds exactly the levels of the tokens that load, each entry coming from one of those tokens |
| Levels.CollectErrors | tests/plugins/test_tk.py:205-396 | the log is the failing tokens' errors in token order (a filter defined independently of the walk), one per failing token, empty exactly when every token loads |
| Levels.LoadWithoutLevels | tests/plugins/test_tk.py:134-147 | a configuration without the levels option fails with the missing-option error and logs nothing |
| Levels.LoadTokensOutcome | tests/plugins/test_tk.py:205-396 | the load succeeds exactly when every token loads, logging nothing; otherwise it fails with a value error after logging the failing tokens' errors in token order, exactly one per failing token |
| Levels.LoadedTableNotEmpty | tests/plugins/test_tk.py:149-169 | a table that loads from at least one token is not empty |
| Levels.ValidConfigLoads | tests/plugins/test_tk.py:149-203 | when every listed token reads as a level whose section holds three convertible options, the load succeeds, logs nothing, its keys are exactly the listed levels and each entry is its section's converted values |
| Levels.LoadedTableKeys | tests/plugins/test_tk.py:171-203 | the keys of a loaded table are exactly the listed level numbers |
| Levels.LoadedTableEntries | tests/plugins/test_tk.py:171-203 | each entry of a loaded table is what its level's section gives |
| Levels.LoadConfigForLevels | tests/plugins/test_tk.py:134-396 | the loop over the tokens produces exactly the specified outcome: the same table, the same errors in the same order, the same failure |
| Levels.LoadedMaxLevel | tests/plugins/test_tk.py:50-112 | the highest key of a table loaded from at least one token is one of the listed levels, and no listed level exceeds it |
| Levels.MaxLevel | tests/plugins/test_tk.py:50-112 | the highest level is one of the levels and no level exceeds it (40 for levels 0, 1, 2, 20, 40; 2 for levels 0, 1, 2) |
| LevelScenarios.ScenarioMissingLevels | tests/plugins/test_tk.py:134-147 | an empty configuration fails with the missing-option error for settings/levels and logs nothing |
| LevelScenarios.ScenarioNominalOneLevel | tests/plugins/test_tk.py:149-169 | levels "0" with section level_0 (1.3, 1.1, 3) loads as {0: (1.3, 1.1, 3)} and logs nothing |
| LevelScenarios.ScenarioNominalManyLevels | tests/plugins/test_tk.py:171-203 | levels "0,20,80" loads as {0: (1.3, 1.1, 3), 20: (1.8, 1.3, 2), 80: (1.0, 1.0, 1)} and logs nothing |
| LevelScenarios.ScenarioLevelJunk | tests/plugins/test_tk.py:205-221 | levels "f00" fails after logging only the invalid level number f00 |
| LevelScenarios.ScenarioMissingSection | tests/plugins/test_tk.py:223-249 | levels "0,20,80" without section level_20 fails after logging only that section as missing |
| LevelScenarios.ScenarioMissingKillMultiplier | tests/plugins/test_tk.py:251-273 | a level_0 without kill_multiplier fails after logging only that option as missing |
| LevelScenarios.ScenarioMissingDamageMultiplier | tests/plugins/test_tk.py:275-297 | a level_0 without damage_multiplier fails after logging only that option as missing |
| LevelScenarios.ScenarioMissingBanLength | tests/plugins/test_tk.py:299-321 | a level_0 without ban_length fails after logging only that option as missing |
| LevelScenarios.ScenarioBadKillMultiplier | tests/plugins/test_tk.py:323-346 | a kill_multiplier of f00 fails after logging only that value as invalid, with float()'s reason |
| LevelScenarios.ScenarioBadDamageMultiplier | tests/plugins/test_tk.py:348-371 | a damage_multiplier of f00 fails after logging only that value as invalid, with float()'s reason |
| LevelScenarios.ScenarioBadBanLength | tests/plugins/test_tk.py:373-396 | an empty ban_length fails after logging only that value as invalid, with int()'s reason for '' |
| LevelMessages.MessageInvalidLevel | tests/plugins/test_tk.py:221 | the logged text is "'f00' is not a valid level number" |
| LevelMessages.MessageMissingSection | tests/plugins/test_tk.py:249 | the logged text is "section 'level_20' is missing from the config file" |
| LevelMessages.MessageMissingKillMultiplier | tests/plugins/test_tk.py:270-272 | the logged text is "option kill_multiplier is missing in section level_0" |
| LevelMessages.MessageMissingDamageMultiplier | tests/plugins/test_tk.py:294-296 | the logged text is "option damage_multiplier is missing in section level_0" |
| LevelMessages.MessageMissingBanLength | tests/plugins/test_tk.py:318-320 | the logged text is "option ban_length is missing in section level_0" |
| LevelMessages.MessageBadKillMultiplier | tests/plugins/test_tk.py:344-346 | the logged text is "value for kill_multiplier is invalid. could not convert string to float: f00" |
| LevelMessages.MessageBadDamageMultiplier | tests/plugins/test_tk.py:369-371 | the logged text is "value for damage_multiplier is invalid. could not convert string to float: f00" |
| LevelMessages.MessageBadBanLength | tests/plugins/test_tk.py:394-396 | the logged text is "value for ban_length is invalid. invalid literal for int() with base 10: ''" |

## Left out

- Reading the XML configuration (`XmlConfigParser`) and the default plugin configuration file are left out; they are a foreign library and file I/O. A configuration is a map from section name to a map from option name to text.
- Python's `float()` is a parameter of the level loader (a total function that yields a real or a reason). The scenarios that need its reason for `f00` take it as a precondition; the model does not define decimal-to-float conversion or its rounding.
- Multipliers are exact reals and points are unbounded integers; floating-point rounding is not modelled.
- Text.ParseInt: covers surrounding whitespace, an optional sign and ASCII digits, which is what the plugin's tests give it. Python 2's `int()` also accepts whitespace between the sign and the digits, and its error text quotes only the first 200 characters of the input, without its leading whitespace; none of this is modelled, and neither is `int()` on non-ASCII digits. Which errors are logged, and how many, does not depend on it; only the text does.
- Text.Repr: quotes its argument with single quotes and escapes nothing. Python 2's `repr()` also escapes quotes and backslashes, writes tab, newline and carriage return as `\t`, `\n` and `\r`, and writes other control characters and non-ASCII bytes as `\xNN`; the model's text agrees only for printable ASCII without quotes or backslashes, which covers the texts the plugin's tests log.
- The scalar settings read by `onLoadConfig` (maximum points, round grace, warning names, thresholds, warning duration) are plain reads from the foreign configuration object and are left out; only the highest level (`Levels.MaxLevel`) is modelled.
- `multipliers_for` is left out: its use of the level table is not visible in the plugin's tests.
- The warning object's `save(console)` is a ghost log (`saved`) of the warnings written, not real I/O.
- Event handling, round grace, point half-life decay, warn and ban escalation, and refusing to forgive a grudged player are left out; none of them appears in the record's visible behaviour, and decay is floating point.
- `getClientTkInfo` and the console's client lookup become the registry argument of `Points`; a victim with no record in the registry contributes 0.
- Only the first problem of a level is logged (kill, then damage, then ban); every token still logs its own. A level with two problems, which no test has, may be reported differently by the plugin.
- A level's section name is built from the parsed level number, so the tokens ` 20` and `020` both look up `level_20`.
- Negative level numbers are accepted, as `int()` accepts them; the tests give no negative level, and rejecting them is not modelled.
- TkRecord.TkInfo.Forgiven: the warning is dropped after it is saved, so a second `forgiven` saves nothing; the test only observes the first call (one save, warning inactive).
- TkRecord.TkInfo.Forgive: keeps the forgiven attacker's entry at 0 rather than deleting it; the two are indistinguishable through `GetAttackerPoints`, the only way the plugin's tests observe it.
- TkRecord.TkInfo.IsGrudged: has no contract of its own; its meaning is stated by the constructor (nobody is grudged) and by `Grudge`.
- TkRecord.TkInfo.Points: is a ghost function with no contract of its own; what it adds up is stated by `OwedTo` and the `SumOwed` lemmas, and how it changes by `Damage` and `Forgiven`.
- The scenario methods of `TkScenarios` have no postconditions: their assertions check one test sequence each and are not listed above.
