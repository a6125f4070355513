/** The tk plugin's level table: for each configured level, the kill multiplier,
    the damage multiplier and the ban length, read from one `level_<N>` section
    per level listed in the comma-separated `levels` setting. */
module Levels {
  import opened Wrappers
  import opened Text
  import Sets

  /** A configuration section: option name to raw text. */
  type Section = map<string, string>

  /** The whole configuration: section name to section. */
  type Config = map<string, Section>

  /** Float conversion is Python's `float()`, which this model does not redefine:
      it is given as a total function that either yields a value or explains why not. */
  type FloatParser = string -> Result<real, string>

  const SettingsSection := "settings"
  const LevelsOption := "levels"
  const KillMultiplier := "kill_multiplier"
  const DamageMultiplier := "damage_multiplier"
  const BanLength := "ban_length"

  datatype LevelEntry = LevelEntry(killMultiplier: real, damageMultiplier: real, banLength: int)

  /** The problems the loader reports through the plugin's error log. */
  datatype LevelError =
    | InvalidLevel(token: string)
    | MissingSection(section: string)
    | MissingOption(option: string, section: string)
    | InvalidValue(option: string, reason: string)

  /** The text logged for each problem. */
  function Message(e: LevelError): string {
    match e
    case InvalidLevel(token) => Repr(token) + " is not a valid level number"
    case MissingSection(section) => "section " + Repr(section) + " is missing from the config file"
    case MissingOption(option, section) => "option " + option + " is missing in section " + section
    case InvalidValue(option, reason) => "value for " + option + " is invalid. " + reason
  }

  /** What the call raises: the config's missing-option error (nothing logged), or a
      value error raised once every problem has been logged. */
  datatype LoadFailure = NoOption(section: string, option: string) | InvalidConfig

  /** The outcome of a load, together with the errors it logged, in order. */
  datatype Outcome = Outcome(result: Result<map<int, LevelEntry>, LoadFailure>, logged: seq<LevelError>)

  function SectionName(level: int): string {
    "level_" + IntToString(level)
  }

  /** The raw `levels` setting, if the configuration has one. */
  function LevelsSetting(config: Config): Option<string> {
    if SettingsSection in config && LevelsOption in config[SettingsSection] then
      Some(config[SettingsSection][LevelsOption])
    else
      None
  }

  // ---------------------------------------------------------------------------
  // One level

  /** A value is produced exactly when the option is present and converts; a missing
      option and a value `float()` rejects are reported as such. */
  function GetFloat(options: Section, section: string, option: string, parseFloat: FloatParser): (r: Result<real, LevelError>)
    ensures option !in options ==> r == Failure(MissingOption(option, section))
    ensures option in options && parseFloat(options[option]).Failure? ==>
              r == Failure(InvalidValue(option, parseFloat(options[option]).error))
    ensures option in options && parseFloat(options[option]).Success? ==> r == Success(parseFloat(options[option]).value)
  {
    if option !in options then Failure(MissingOption(option, section))
    else
      match parseFloat(options[option])
      case Success(x) => Success(x)
      case Failure(reason) => Failure(InvalidValue(option, reason))
  }

  /** The same for an integer option, read with `int()`. */
  function GetInt(options: Section, section: string, option: string): (r: Result<int, LevelError>)
    ensures option !in options ==> r == Failure(MissingOption(option, section))
    ensures option in options && ParseInt(options[option]).Failure? ==>
              r == Failure(InvalidValue(option, ParseInt(options[option]).error))
    ensures option in options && ParseInt(options[option]).Success? ==> r == Success(ParseInt(options[option]).value)
  {
    if option !in options then Failure(MissingOption(option, section))
    else
      match ParseInt(options[option])
      case Success(n) => Success(n)
      case Failure(reason) => Failure(InvalidValue(option, reason))
  }

  /** All three options of a level's section are present and convert. */
  predicate Convertible(options: Section, parseFloat: FloatParser) {
    && KillMultiplier in options && parseFloat(options[KillMultiplier]).Success?
    && DamageMultiplier in options && parseFloat(options[DamageMultiplier]).Success?
    && BanLength in options && ParseInt(options[BanLength]).Success?
  }

  /** The entry a convertible section describes. */
  function Entry(options: Section, parseFloat: FloatParser): LevelEntry
    requires Convertible(options, parseFloat)
  {
    LevelEntry(parseFloat(options[KillMultiplier]).value, parseFloat(options[DamageMultiplier]).value,
               ParseInt(options[BanLength]).value)
  }

  /** Reads the three options of one level's section in the order kill multiplier,
      damage multiplier, ban length; the first one missing or malformed is the single
      problem reported for that level, and a section whose three options convert
      gives their entry. */
  function ReadLevel(options: Section, section: string, parseFloat: FloatParser): (r: Result<LevelEntry, LevelError>)
    ensures KillMultiplier !in options ==> r == Failure(MissingOption(KillMultiplier, section))
    ensures KillMultiplier in options && parseFloat(options[KillMultiplier]).Failure? ==>
              r == Failure(InvalidValue(KillMultiplier, parseFloat(options[KillMultiplier]).error))
    ensures KillMultiplier in options && parseFloat(options[KillMultiplier]).Success? ==>
              && (DamageMultiplier !in options ==> r == Failure(MissingOption(DamageMultiplier, section)))
              && (DamageMultiplier in options && parseFloat(options[DamageMultiplier]).Failure? ==>
                    r == Failure(InvalidValue(DamageMultiplier, parseFloat(options[DamageMultiplier]).error)))
    ensures KillMultiplier in options && parseFloat(options[KillMultiplier]).Success? &&
            DamageMultiplier in options && parseFloat(options[DamageMultiplier]).Success? ==>
              && (BanLength !in options ==> r == Failure(MissingOption(BanLength, section)))
              && (BanLength in options && ParseInt(options[BanLength]).Failure? ==>
                    r == Failure(InvalidValue(BanLength, ParseInt(options[BanLength]).error)))
    ensures r.Success? <==> Convertible(options, parseFloat)
    ensures Convertible(options, parseFloat) ==> r == Success(Entry(options, parseFloat))
  {
    var kill :- GetFloat(options, section, KillMultiplier, parseFloat);
    var damage :- GetFloat(options, section, DamageMultiplier, parseFloat);
    var ban :- GetInt(options, section, BanLength);
    Success(LevelEntry(kill, damage, ban))
  }

  /** The entry of `level`, read from section `level_<level>`, or why it cannot be. */
  function LoadLevel(config: Config, level: int, parseFloat: FloatParser): (r: Result<LevelEntry, LevelError>)
    ensures SectionName(level) !in config ==> r == Failure(MissingSection(SectionName(level)))
    ensures SectionName(level) in config ==> r == ReadLevel(config[SectionName(level)], SectionName(level), parseFloat)
  {
    var name := SectionName(level);
    if name !in config then Failure(MissingSection(name)) else ReadLevel(config[name], name, parseFloat)
  }

  /** A token reads as a level whose section exists and converts. */
  predicate LevelLoads(token: string, config: Config, parseFloat: FloatParser) {
    && ParseInt(token).Success?
    && SectionName(ParseInt(token).value) in config
    && Convertible(config[SectionName(ParseInt(token).value)], parseFloat)
  }

  /** One token of the `levels` setting: a level number and its entry, or the one
      problem logged for that token. */
  function TokenResult(token: string, config: Config, parseFloat: FloatParser): (r: Result<(int, LevelEntry), LevelError>)
    ensures ParseInt(token).Failure? ==> r == Failure(InvalidLevel(token))
    ensures r.Success? ==> ParseInt(token) == Success(r.value.0) && LoadLevel(config, r.value.0, parseFloat) == Success(r.value.1)
    ensures r.Success? <==> LevelLoads(token, config, parseFloat)
    ensures ParseInt(token).Success? && LoadLevel(config, ParseInt(token).value, parseFloat).Failure? ==>
              r == Failure(LoadLevel(config, ParseInt(token).value, parseFloat).error)
  {
    match ParseInt(token)
    case Failure(_) => Failure(InvalidLevel(token))
    case Success(level) =>
      match LoadLevel(config, level, parseFloat)
      case Success(entry) => Success((level, entry))
      case Failure(e) => Failure(e)
  }

  // ---------------------------------------------------------------------------
  // The whole table

  /** What one token contributes: a level and its entry, or one logged problem. */
  type TokenOutcome = Result<(int, LevelEntry), LevelError>

  /** The outcome of every token, in order. */
  function TokenResults(tokens: seq<string>, config: Config, parseFloat: FloatParser): (rs: seq<TokenOutcome>)
    ensures |rs| == |tokens|
    ensures forall i :: 0 <= i < |tokens| ==> rs[i] == TokenResult(tokens[i], config, parseFloat)
  {
    seq(|tokens|, i requires 0 <= i < |tokens| => TokenResult(tokens[i], config, parseFloat))
  }

  /** The table built so far and the errors logged so far. */
  datatype Progress = Progress(table: map<int, LevelEntry>, errors: seq<LevelError>)

  function Step(p: Progress, r: TokenOutcome): Progress {
    match r
    case Success((level, entry)) => Progress(p.table[level := entry], p.errors)
    case Failure(e) => Progress(p.table, p.errors + [e])
  }

  /** The token outcomes applied left to right. */
  function Collect(rs: seq<TokenOutcome>): Progress
    decreases |rs|
  {
    if |rs| == 0 then Progress(map[], [])
    else Step(Collect(rs[..|rs| - 1]), rs[|rs| - 1])
  }

  /** One more token outcome is one more step. */
  lemma CollectSnoc(rs: seq<TokenOutcome>, r: TokenOutcome)
    ensures Collect(rs + [r]) == Step(Collect(rs), r)
  {
    assert (rs + [r])[..|rs|] == rs;
  }

  /** The outcomes of a prefix one token longer. */
  lemma CollectPrefix(rs: seq<TokenOutcome>, i: nat)
    requires i < |rs|
    ensures Collect(rs[..i + 1]) == Step(Collect(rs[..i]), rs[i])
  {
    assert rs[..i + 1][..i] == rs[..i];
  }

  /** The levels of the tokens that load. */
  ghost function Accepted(rs: seq<TokenOutcome>): set<int> {
    set i | 0 <= i < |rs| && rs[i].Success? :: rs[i].value.0
  }

  /** The table holds exactly the levels of the tokens that load, each entry coming
      from one of those tokens. */
  lemma {:induction false} CollectTable(rs: seq<TokenOutcome>)
    ensures var p := Collect(rs);
            && p.table.Keys == Accepted(rs)
            && forall level :: level in p.table ==> exists i :: 0 <= i < |rs| && rs[i] == Success((level, p.table[level]))
    decreases |rs|
  {
    if |rs| > 0 {
      var init := rs[..|rs| - 1];
      var last := rs[|rs| - 1];
      CollectTable(init);
      assert forall i :: 0 <= i < |init| ==> init[i] == rs[i];
      if last.Success? {
        assert Accepted(rs) == Accepted(init) + {last.value.0};
      } else {
        assert Accepted(rs) == Accepted(init);
      }
    }
  }

  /** The errors of the failing outcomes, first to last. */
  function FailedErrors(rs: seq<TokenOutcome>): seq<LevelError>
    decreases |rs|
  {
    if |rs| == 0 then []
    else (if rs[0].Failure? then [rs[0].error] else []) + FailedErrors(rs[1..])
  }

  /** The positions of the tokens that do not load. */
  ghost function FailingTokens(rs: seq<TokenOutcome>): set<int> {
    set i | 0 <= i < |rs| && rs[i].Failure?
  }

  /** Filtering a longer sequence filters the last outcome after the others. */
  lemma {:induction false} FailedErrorsSnoc(rs: seq<TokenOutcome>, r: TokenOutcome)
    ensures FailedErrors(rs + [r]) == FailedErrors(rs) + (if r.Failure? then [r.error] else [])
    decreases |rs|
  {
    if |rs| > 0 {
      assert (rs + [r])[0] == rs[0];
      assert (rs + [r])[1..] == rs[1..] + [r];
      FailedErrorsSnoc(rs[1..], r);
    } else {
      assert [r][1..] == [];
    }
  }

  /** The log is the failing outcomes' errors, in token order. */
  lemma {:induction false} CollectErrorsInOrder(rs: seq<TokenOutcome>)
    ensures Collect(rs).errors == FailedErrors(rs)
    decreases |rs|
  {
    if |rs| > 0 {
      var init := rs[..|rs| - 1];
      var last := rs[|rs| - 1];
      CollectErrorsInOrder(init);
      assert init + [last] == rs;
      FailedErrorsSnoc(init, last);
    }
  }

  /** The log holds one error per token that does not load. */
  lemma {:induction false} CollectErrorCount(rs: seq<TokenOutcome>)
    ensures |Collect(rs).errors| == |FailingTokens(rs)|
    decreases |rs|
  {
    if |rs| > 0 {
      var init := rs[..|rs| - 1];
      CollectErrorCount(init);
      assert forall i :: 0 <= i < |init| ==> init[i] == rs[i];
      if rs[|rs| - 1].Failure? {
        assert FailingTokens(rs) == FailingTokens(init) + {|rs| - 1};
      } else {
        assert FailingTokens(rs) == FailingTokens(init);
      }
    }
  }

  /** The log is empty exactly when every token loads; it holds every failing
      token's error and nothing else. */
  lemma {:induction false} CollectErrorsMembers(rs: seq<TokenOutcome>)
    ensures var p := Collect(rs);
            && (p.errors == [] <==> forall i :: 0 <= i < |rs| ==> rs[i].Success?)
            && (forall i :: 0 <= i < |rs| && rs[i].Failure? ==> rs[i].error in p.errors)
            && (forall e :: e in p.errors ==> exists i :: 0 <= i < |rs| && rs[i] == Failure(e))
    decreases |rs|
  {
    if |rs| > 0 {
      var init := rs[..|rs| - 1];
      CollectErrorsMembers(init);
      assert forall i :: 0 <= i < |init| ==> init[i] == rs[i];
    }
  }

  /** The log holds one error per token that does not load, in token order, and
      nothing else. */
  lemma CollectErrors(rs: seq<TokenOutcome>)
    ensures var p := Collect(rs);
            && p.errors == FailedErrors(rs)
            && |p.errors| == |FailingTokens(rs)|
            && (p.errors == [] <==> forall i :: 0 <= i < |rs| ==> rs[i].Success?)
            && (forall i :: 0 <= i < |rs| && rs[i].Failure? ==> rs[i].error in p.errors)
            && (forall e :: e in p.errors ==> exists i :: 0 <= i < |rs| && rs[i] == Failure(e))
  {
    CollectErrorsInOrder(rs);
    CollectErrorCount(rs);
    CollectErrorsMembers(rs);
  }

  /** The end of the walk: the table if nothing was logged, the value error otherwise. */
  function Finish(p: Progress): Outcome {
    if p.errors == [] then Outcome(Success(p.table), []) else Outcome(Failure(InvalidConfig), p.errors)
  }

  /** A load once the `levels` setting has been split into tokens. */
  function LoadTokens(tokens: seq<string>, config: Config, parseFloat: FloatParser): Outcome {
    Finish(Collect(TokenResults(tokens, config, parseFloat)))
  }

  /** The specification of `load_config_for_levels`. */
  function Load(config: Config, parseFloat: FloatParser): Outcome {
    match LevelsSetting(config)
    case None => Outcome(Failure(NoOption(SettingsSection, LevelsOption)), [])
    case Some(raw) => LoadTokens(Split(raw), config, parseFloat)
  }

  /** A missing `levels` setting is the config's own missing-option error, and nothing
      is logged. */
  lemma LoadWithoutLevels(config: Config, parseFloat: FloatParser)
    requires LevelsSetting(config).None?
    ensures Load(config, parseFloat) == Outcome(Failure(NoOption(SettingsSection, LevelsOption)), [])
  {
  }

  /** The load succeeds exactly when every token loads, and then it logs nothing;
      otherwise it fails with a value error after logging every problem: one per
      failing token, in token order, each naming what went wrong with it. */
  lemma LoadTokensOutcome(tokens: seq<string>, config: Config, parseFloat: FloatParser)
    ensures var o := LoadTokens(tokens, config, parseFloat);
            && (o.result.Success? <==> forall i :: 0 <= i < |tokens| ==> TokenResult(tokens[i], config, parseFloat).Success?)
            && (o.result.Success? ==> o.logged == [])
            && (o.result.Failure? ==>
                  && o.result.error == InvalidConfig
                  && o.logged == FailedErrors(TokenResults(tokens, config, parseFloat))
                  && |o.logged| == |FailingTokens(TokenResults(tokens, config, parseFloat))| > 0
                  && (forall i :: 0 <= i < |tokens| && TokenResult(tokens[i], config, parseFloat).Failure? ==>
                        TokenResult(tokens[i], config, parseFloat).error in o.logged)
                  && (forall e :: e in o.logged ==>
                        exists i :: 0 <= i < |tokens| && TokenResult(tokens[i], config, parseFloat) == Failure(e)))
  {
    var rs := TokenResults(tokens, config, parseFloat);
    CollectErrors(rs);
    assert (forall i :: 0 <= i < |rs| ==> rs[i].Success?) <==>
           (forall i :: 0 <= i < |tokens| ==> TokenResult(tokens[i], config, parseFloat).Success?);
  }

  /** A table that loads from at least one token is not empty. */
  lemma LoadedTableNotEmpty(tokens: seq<string>, config: Config, parseFloat: FloatParser)
    requires |tokens| > 0
    requires LoadTokens(tokens, config, parseFloat).result.Success?
    ensures LoadTokens(tokens, config, parseFloat).result.value != map[]
  {
    var rs := TokenResults(tokens, config, parseFloat);
    CollectErrors(rs);
    CollectTable(rs);
    assert rs[0].value.0 in Accepted(rs);
  }

  /** Every token that loads contributes its level, and every level comes from one. */
  lemma AcceptedLevels(tokens: seq<string>, config: Config, parseFloat: FloatParser)
    requires forall i :: 0 <= i < |tokens| ==> TokenResult(tokens[i], config, parseFloat).Success?
    ensures forall level :: level in Accepted(TokenResults(tokens, config, parseFloat)) <==>
              exists i :: 0 <= i < |tokens| && ParseInt(tokens[i]) == Success(level)
  {
    var rs := TokenResults(tokens, config, parseFloat);
    forall level | level in Accepted(rs)
      ensures exists i :: 0 <= i < |tokens| && ParseInt(tokens[i]) == Success(level)
    {
      var i :| 0 <= i < |rs| && rs[i].Success? && rs[i].value.0 == level;
      assert ParseInt(tokens[i]) == Success(level);
    }
    forall level | exists i :: 0 <= i < |tokens| && ParseInt(tokens[i]) == Success(level)
      ensures level in Accepted(rs)
    {
      var i :| 0 <= i < |tokens| && ParseInt(tokens[i]) == Success(level);
      assert rs[i].value.0 == level;
    }
  }

  /** The keys of a table that loads are exactly the listed level numbers. */
  lemma LoadedTableKeys(tokens: seq<string>, config: Config, parseFloat: FloatParser)
    requires LoadTokens(tokens, config, parseFloat).result.Success?
    ensures var table := LoadTokens(tokens, config, parseFloat).result.value;
            forall level :: level in table <==> exists i :: 0 <= i < |tokens| && ParseInt(tokens[i]) == Success(level)
  {
    var rs := TokenResults(tokens, config, parseFloat);
    assert Collect(rs).table.Keys == Accepted(rs) by {
      CollectTable(rs);
    }
    assert forall i :: 0 <= i < |tokens| ==> TokenResult(tokens[i], config, parseFloat).Success? by {
      CollectErrors(rs);
    }
    AcceptedLevels(tokens, config, parseFloat);
  }

  /** Each entry of a table that loads is what its level's section gives. */
  lemma LoadedTableEntries(tokens: seq<string>, config: Config, parseFloat: FloatParser)
    requires LoadTokens(tokens, config, parseFloat).result.Success?
    ensures var table := LoadTokens(tokens, config, parseFloat).result.value;
            forall level :: level in table ==> LoadLevel(config, level, parseFloat) == Success(table[level])
  {
    var rs := TokenResults(tokens, config, parseFloat);
    var table := Collect(rs).table;
    assert forall level :: level in table ==> exists i :: 0 <= i < |rs| && rs[i] == Success((level, table[level])) by {
      CollectTable(rs);
    }
    forall level | level in table
      ensures LoadLevel(config, level, parseFloat) == Success(table[level])
    {
      var i :| 0 <= i < |rs| && rs[i] == Success((level, table[level]));
    }
  }

  /** A loaded entry is the one its section describes. */
  lemma LoadedEntry(config: Config, level: int, parseFloat: FloatParser, entry: LevelEntry)
    requires LoadLevel(config, level, parseFloat) == Success(entry)
    ensures SectionName(level) in config && Convertible(config[SectionName(level)], parseFloat)
    ensures entry == Entry(config[SectionName(level)], parseFloat)
  {
  }

  /** Tokens that all load give a table, log nothing, and the table's keys are exactly
      their levels, each with the entry its section describes. */
  lemma ValidTokensLoad(tokens: seq<string>, config: Config, parseFloat: FloatParser)
    requires forall i :: 0 <= i < |tokens| ==> LevelLoads(tokens[i], config, parseFloat)
    ensures var o := LoadTokens(tokens, config, parseFloat);
            && o == Outcome(o.result, []) && o.result.Success?
            && (forall level :: level in o.result.value <==> exists i :: 0 <= i < |tokens| && ParseInt(tokens[i]) == Success(level))
            && (forall level :: level in o.result.value ==>
                  SectionName(level) in config && Convertible(config[SectionName(level)], parseFloat) &&
                  o.result.value[level] == Entry(config[SectionName(level)], parseFloat))
  {
    assert forall i :: 0 <= i < |tokens| ==> TokenResult(tokens[i], config, parseFloat).Success?;
    LoadTokensOutcome(tokens, config, parseFloat);
    var table := LoadTokens(tokens, config, parseFloat).result.value;
    LoadedTableKeys(tokens, config, parseFloat);
    LoadedTableEntries(tokens, config, parseFloat);
    forall level | level in table
      ensures SectionName(level) in config && Convertible(config[SectionName(level)], parseFloat)
      ensures table[level] == Entry(config[SectionName(level)], parseFloat)
    {
      LoadedEntry(config, level, parseFloat, table[level]);
    }
  }

  /** A configuration with a `levels` setting loads the tokens of that setting. */
  lemma LoadSplits(config: Config, raw: string, parseFloat: FloatParser)
    requires LevelsSetting(config) == Some(raw)
    ensures Load(config, parseFloat) == LoadTokens(Split(raw), config, parseFloat)
  {
  }

  /** A valid configuration loads: when every listed token reads as a level whose
      section holds three convertible options, nothing is logged, the table's keys are
      exactly the listed levels, and each holds the entry its section describes. */
  lemma ValidConfigLoads(config: Config, raw: string, parseFloat: FloatParser)
    requires LevelsSetting(config) == Some(raw)
    requires forall i :: 0 <= i < |Split(raw)| ==> LevelLoads(Split(raw)[i], config, parseFloat)
    ensures var o := Load(config, parseFloat);
            && o == Outcome(o.result, []) && o.result.Success?
            && (forall level :: level in o.result.value <==> exists i :: 0 <= i < |Split(raw)| && ParseInt(Split(raw)[i]) == Success(level))
            && (forall level :: level in o.result.value ==>
                  SectionName(level) in config && Convertible(config[SectionName(level)], parseFloat) &&
                  o.result.value[level] == Entry(config[SectionName(level)], parseFloat))
  {
    LoadSplits(config, raw, parseFloat);
    ValidTokensLoad(Split(raw), config, parseFloat);
  }

  /** The highest level of a table loaded from at least one token is a listed level,
      and no listed level exceeds it. */
  lemma LoadedMaxLevel(tokens: seq<string>, config: Config, parseFloat: FloatParser)
    requires |tokens| > 0
    requires LoadTokens(tokens, config, parseFloat).result.Success?
    ensures var table := LoadTokens(tokens, config, parseFloat).result.value;
            && table.Keys != {}
            && (exists i :: 0 <= i < |tokens| && ParseInt(tokens[i]) == Success(MaxLevel(table.Keys)))
            && (forall i :: 0 <= i < |tokens| && ParseInt(tokens[i]).Success? ==> ParseInt(tokens[i]).value <= MaxLevel(table.Keys))
  {
    var table := LoadTokens(tokens, config, parseFloat).result.value;
    LoadedTableNotEmpty(tokens, config, parseFloat);
    LoadedTableKeys(tokens, config, parseFloat);
    assert table.Keys != {} by {
      var level :| level in table;
      assert level in table.Keys;
    }
    var top := MaxLevel(table.Keys);
    assert top in table;
    forall i | 0 <= i < |tokens| && ParseInt(tokens[i]).Success?
      ensures ParseInt(tokens[i]).value <= top
    {
      assert ParseInt(tokens[i]).value in table.Keys;
    }
  }

  /** `load_config_for_levels`: walks the level tokens, builds the table and logs a
      problem for each token that does not load, then fails if anything was logged. */
  method LoadConfigForLevels(config: Config, parseFloat: FloatParser) returns (o: Outcome)
    ensures o == Load(config, parseFloat)
  {
    var setting := LevelsSetting(config);
    if setting.None? {
      return Outcome(Failure(NoOption(SettingsSection, LevelsOption)), []);
    }
    var tokens := Split(setting.value);
    ghost var rs := TokenResults(tokens, config, parseFloat);
    var table: map<int, LevelEntry> := map[];
    var errors: seq<LevelError> := [];
    var i := 0;
    while i < |tokens|
      invariant 0 <= i <= |tokens|
      invariant Progress(table, errors) == Collect(rs[..i])
    {
      var r := TokenResult(tokens[i], config, parseFloat);
      assert r == rs[i];
      CollectPrefix(rs, i);
      match r {
        case Success((level, entry)) =>
          table := table[level := entry];
        case Failure(e) =>
          errors := errors + [e];
      }
      i := i + 1;
    }
    assert rs[..i] == rs;
    if errors == [] {
      o := Outcome(Success(table), []);
    } else {
      o := Outcome(Failure(InvalidConfig), errors);
    }
  }

  /** The plugin's `_maxLevel`: the highest level in the table. */
  ghost function MaxLevel(levels: set<int>): (m: int)
    requires levels != {}
    ensures m in levels && forall x :: x in levels ==> x <= m
    decreases levels
  {
    Sets.EmptyOrInhabited(levels);
    var level :| level in levels;
    var others := levels - {level};
    assert forall x :: x in levels ==> x == level || x in others;
    if others == {} then
      level
    else
      var rest := MaxLevel(others);
      if level <= rest then rest else level
  }
}
