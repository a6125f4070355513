/** The level loader on the configurations the plugin's behaviour is pinned to:
    the outcome, the single error each broken configuration logs, and its text. */
module LevelScenarios {
  import opened Wrappers
  import opened Text
  import opened Levels
  import opened LevelMessages

  // ---------------------------------------------------------------------------
  // Unfolding a load one token at a time

  const Start := Progress(map[], [])

  lemma LoadOneToken(config: Config, parseFloat: FloatParser, t: string)
    requires LevelsSetting(config) == Some(t) && ',' !in t
    ensures Load(config, parseFloat) == Finish(Step(Start, TokenResult(t, config, parseFloat)))
  {
    SplitWithoutComma(t);
    var r := TokenResult(t, config, parseFloat);
    assert TokenResults([t], config, parseFloat) == [r];
    CollectSnoc([], r);
  }

  lemma SplitThree(t0: string, t1: string, t2: string)
    requires ',' !in t0 && ',' !in t1 && ',' !in t2
    ensures Split(t0 + "," + t1 + "," + t2) == [t0, t1, t2]
  {
    var tokens := [t0, t1, t2];
    assert tokens[1..] == [t1, t2] && tokens[1..][1..] == [t2];
    assert Join([t1, t2]) == t1 + "," + t2;
    assert Join(tokens) == t0 + "," + (t1 + "," + t2);
    assert t0 + "," + (t1 + "," + t2) == t0 + "," + t1 + "," + t2;
    SplitJoin(tokens);
  }

  lemma CollectThree(r0: TokenOutcome, r1: TokenOutcome, r2: TokenOutcome)
    ensures Collect([r0, r1, r2]) == Step(Step(Step(Start, r0), r1), r2)
  {
    CollectSnoc([], r0);
    CollectSnoc([r0], r1);
    assert [r0] + [r1] == [r0, r1];
    CollectSnoc([r0, r1], r2);
    assert [r0, r1] + [r2] == [r0, r1, r2];
  }

  lemma LoadThreeTokens(config: Config, parseFloat: FloatParser, t0: string, t1: string, t2: string)
    requires LevelsSetting(config) == Some(t0 + "," + t1 + "," + t2)
    requires ',' !in t0 && ',' !in t1 && ',' !in t2
    ensures var r0, r1, r2 := TokenResult(t0, config, parseFloat), TokenResult(t1, config, parseFloat), TokenResult(t2, config, parseFloat);
            Load(config, parseFloat) == Finish(Step(Step(Step(Start, r0), r1), r2))
  {
    SplitThree(t0, t1, t2);
    var r0, r1, r2 := TokenResult(t0, config, parseFloat), TokenResult(t1, config, parseFloat), TokenResult(t2, config, parseFloat);
    assert TokenResults([t0, t1, t2], config, parseFloat) == [r0, r1, r2];
    CollectThree(r0, r1, r2);
  }

  /** A token that reads as `level` stands for what that level's section gives. */
  lemma TokenOfLevel(t: string, level: int, config: Config, parseFloat: FloatParser)
    requires ParseInt(t) == Success(level)
    ensures TokenResult(t, config, parseFloat) ==
              match LoadLevel(config, level, parseFloat)
              case Success(entry) => Success((level, entry))
              case Failure(e) => Failure(e)
  {
  }

  // ---------------------------------------------------------------------------
  // Literal facts

  lemma Level0()
    ensures ParseInt("0") == Success(0) && SectionName(0) == "level_0"
  {
    ParseIntDigits("0");
  }

  lemma Level20()
    ensures ParseInt("20") == Success(20) && SectionName(20) == "level_20"
  {
    ParseIntDigits("20");
  }

  lemma Level80()
    ensures ParseInt("80") == Success(80) && SectionName(80) == "level_80"
  {
    ParseIntDigits("80");
  }

  lemma SmallInts()
    ensures ParseInt("1") == Success(1) && ParseInt("2") == Success(2) && ParseInt("3") == Success(3)
  {
    ParseIntDigits("1");
    ParseIntDigits("2");
    ParseIntDigits("3");
  }

  // ---------------------------------------------------------------------------
  // Configurations

  function Settings(levels: string): Section {
    map[LevelsOption := levels]
  }

  function LevelSection(kill: string, damage: string, ban: string): Section {
    map[KillMultiplier := kill, DamageMultiplier := damage, BanLength := ban]
  }

  /** A configuration with a `levels` setting and a single section `level_0`. */
  function OneLevelConfig(levels: string, level0: Section): Config {
    map[SettingsSection := Settings(levels), "level_0" := level0]
  }

  function ManyLevelsConfig(): Config {
    map[SettingsSection := Settings("0,20,80"),
        "level_0" := LevelSection("1.3", "1.1", "3"),
        "level_20" := LevelSection("1.8", "1.3", "2"),
        "level_80" := LevelSection("1", "1", "1")]
  }

  /** The same levels with section `level_20` dropped. */
  function MissingSectionConfig(): Config {
    map[SettingsSection := Settings("0,20,80"),
        "level_0" := LevelSection("1.3", "1.1", "3"),
        "level_80" := LevelSection("1", "1", "1")]
  }

  lemma OneLevelLayout(level0: Section)
    ensures var config := OneLevelConfig("0", level0);
            LevelsSetting(config) == Some("0") && "level_0" in config && config["level_0"] == level0 && ',' !in "0"
  {
  }

  /** A load of `levels = 0` is what section `level_0` gives. */
  lemma LoadLevelZero(level0: Section, parseFloat: FloatParser)
    ensures var config := OneLevelConfig("0", level0);
            Load(config, parseFloat) == Finish(Step(Start,
              match ReadLevel(level0, "level_0", parseFloat)
              case Success(entry) => Success((0, entry))
              case Failure(e) => Failure(e)))
  {
    var config := OneLevelConfig("0", level0);
    Level0();
    OneLevelLayout(level0);
    LoadOneToken(config, parseFloat, "0");
    TokenOfLevel("0", 0, config, parseFloat);
  }

  // ---------------------------------------------------------------------------
  // Scenarios

  lemma ScenarioMissingLevels(parseFloat: FloatParser)
    ensures Load(map[], parseFloat) == Outcome(Failure(NoOption("settings", "levels")), [])
  {
  }

  lemma ScenarioNominalOneLevel(parseFloat: FloatParser)
    requires parseFloat("1.3") == Success(1.3) && parseFloat("1.1") == Success(1.1)
    ensures Load(OneLevelConfig("0", LevelSection("1.3", "1.1", "3")), parseFloat) ==
              Outcome(Success(map[0 := LevelEntry(1.3, 1.1, 3)]), [])
  {
    SmallInts();
    ReadSection("1.3", "1.1", "3", "level_0", parseFloat);
    LoadLevelZero(LevelSection("1.3", "1.1", "3"), parseFloat);
  }

  /** The three tokens of `levels = 0,20,80`, each read through its own section. */
  lemma LoadThreeLevels(config: Config, parseFloat: FloatParser)
    requires LevelsSetting(config) == Some("0,20,80")
    ensures Load(config, parseFloat) == Finish(Step(Step(Step(Start,
              TokenResult("0", config, parseFloat)), TokenResult("20", config, parseFloat)), TokenResult("80", config, parseFloat)))
    ensures TokenResult("0", config, parseFloat) ==
              match LoadLevel(config, 0, parseFloat) case Success(entry) => Success((0, entry)) case Failure(e) => Failure(e)
    ensures TokenResult("20", config, parseFloat) ==
              match LoadLevel(config, 20, parseFloat) case Success(entry) => Success((20, entry)) case Failure(e) => Failure(e)
    ensures TokenResult("80", config, parseFloat) ==
              match LoadLevel(config, 80, parseFloat) case Success(entry) => Success((80, entry)) case Failure(e) => Failure(e)
    ensures SectionName(0) == "level_0" && SectionName(20) == "level_20" && SectionName(80) == "level_80"
  {
    assert "0" + "," + "20" + "," + "80" == "0,20,80";
    LoadThreeTokens(config, parseFloat, "0", "20", "80");
    Level0();
    Level20();
    Level80();
    TokenOfLevel("0", 0, config, parseFloat);
    TokenOfLevel("20", 20, config, parseFloat);
    TokenOfLevel("80", 80, config, parseFloat);
  }

  /** A section holding three readable options reads as those three values. */
  lemma ReadSection(kill: string, damage: string, ban: string, name: string, parseFloat: FloatParser)
    requires parseFloat(kill).Success? && parseFloat(damage).Success? && ParseInt(ban).Success?
    ensures ReadLevel(LevelSection(kill, damage, ban), name, parseFloat) ==
              Success(LevelEntry(parseFloat(kill).value, parseFloat(damage).value, ParseInt(ban).value))
  {
    var options := LevelSection(kill, damage, ban);
    assert options[KillMultiplier] == kill && options[DamageMultiplier] == damage && options[BanLength] == ban;
  }

  /** A level whose section holds three readable options loads as those three values. */
  lemma SectionEntry(config: Config, level: int, name: string, kill: string, damage: string, ban: string, parseFloat: FloatParser)
    requires SectionName(level) == name && name in config && config[name] == LevelSection(kill, damage, ban)
    requires parseFloat(kill).Success? && parseFloat(damage).Success? && ParseInt(ban).Success?
    ensures LoadLevel(config, level, parseFloat) ==
              Success(LevelEntry(parseFloat(kill).value, parseFloat(damage).value, ParseInt(ban).value))
  {
    ReadSection(kill, damage, ban, name, parseFloat);
  }

  lemma ManyLevelsSetting()
    ensures LevelsSetting(ManyLevelsConfig()) == Some("0,20,80")
  {
  }

  lemma ManyLevelsSections()
    ensures var config := ManyLevelsConfig();
            && "level_0" in config && config["level_0"] == LevelSection("1.3", "1.1", "3")
            && "level_20" in config && config["level_20"] == LevelSection("1.8", "1.3", "2")
            && "level_80" in config && config["level_80"] == LevelSection("1", "1", "1")
  {
  }

  lemma ManyLevelsEntry0(parseFloat: FloatParser)
    requires parseFloat("1.3") == Success(1.3) && parseFloat("1.1") == Success(1.1)
    ensures LoadLevel(ManyLevelsConfig(), 0, parseFloat) == Success(LevelEntry(1.3, 1.1, 3))
  {
    SmallInts();
    Level0();
    ManyLevelsSections();
    SectionEntry(ManyLevelsConfig(), 0, "level_0", "1.3", "1.1", "3", parseFloat);
  }

  lemma ManyLevelsEntry20(parseFloat: FloatParser)
    requires parseFloat("1.8") == Success(1.8) && parseFloat("1.3") == Success(1.3)
    ensures LoadLevel(ManyLevelsConfig(), 20, parseFloat) == Success(LevelEntry(1.8, 1.3, 2))
  {
    SmallInts();
    Level20();
    ManyLevelsSections();
    SectionEntry(ManyLevelsConfig(), 20, "level_20", "1.8", "1.3", "2", parseFloat);
  }

  lemma ManyLevelsEntry80(parseFloat: FloatParser)
    requires parseFloat("1") == Success(1.0)
    ensures LoadLevel(ManyLevelsConfig(), 80, parseFloat) == Success(LevelEntry(1.0, 1.0, 1))
  {
    SmallInts();
    Level80();
    ManyLevelsSections();
    SectionEntry(ManyLevelsConfig(), 80, "level_80", "1", "1", "1", parseFloat);
  }

  /** `levels = 0,20,80` with all three sections readable gives exactly those three entries. */
  lemma LoadThreeLevelsSucceed(config: Config, parseFloat: FloatParser, e0: LevelEntry, e20: LevelEntry, e80: LevelEntry)
    requires LevelsSetting(config) == Some("0,20,80")
    requires LoadLevel(config, 0, parseFloat) == Success(e0)
    requires LoadLevel(config, 20, parseFloat) == Success(e20)
    requires LoadLevel(config, 80, parseFloat) == Success(e80)
    ensures Load(config, parseFloat) == Outcome(Success(map[0 := e0, 20 := e20, 80 := e80]), [])
  {
    LoadThreeLevels(config, parseFloat);
  }

  lemma ScenarioNominalManyLevels(parseFloat: FloatParser)
    requires parseFloat("1.3") == Success(1.3) && parseFloat("1.1") == Success(1.1)
    requires parseFloat("1.8") == Success(1.8) && parseFloat("1") == Success(1.0)
    ensures Load(ManyLevelsConfig(), parseFloat) ==
              Outcome(Success(map[0 := LevelEntry(1.3, 1.1, 3), 20 := LevelEntry(1.8, 1.3, 2), 80 := LevelEntry(1.0, 1.0, 1)]), [])
  {
    ManyLevelsEntry0(parseFloat);
    ManyLevelsEntry20(parseFloat);
    ManyLevelsEntry80(parseFloat);
    ManyLevelsSetting();
    LoadThreeLevelsSucceed(ManyLevelsConfig(), parseFloat, LevelEntry(1.3, 1.1, 3), LevelEntry(1.8, 1.3, 2), LevelEntry(1.0, 1.0, 1));
  }

  lemma MissingSectionSections()
    ensures var config := MissingSectionConfig();
            && "level_0" in config && config["level_0"] == LevelSection("1.3", "1.1", "3")
            && "level_20" !in config
            && "level_80" in config && config["level_80"] == LevelSection("1", "1", "1")
  {
  }

  lemma MissingSectionEntries(parseFloat: FloatParser)
    requires parseFloat("1.3").Success? && parseFloat("1.1").Success? && parseFloat("1").Success?
    ensures LoadLevel(MissingSectionConfig(), 0, parseFloat).Success?
    ensures LoadLevel(MissingSectionConfig(), 20, parseFloat) == Failure(MissingSection("level_20"))
    ensures LoadLevel(MissingSectionConfig(), 80, parseFloat).Success?
  {
    SmallInts();
    Level0();
    Level20();
    Level80();
    MissingSectionSections();
    SectionEntry(MissingSectionConfig(), 0, "level_0", "1.3", "1.1", "3", parseFloat);
    SectionEntry(MissingSectionConfig(), 80, "level_80", "1", "1", "1", parseFloat);
  }

  lemma ScenarioMissingSection(parseFloat: FloatParser)
    requires parseFloat("1.3").Success? && parseFloat("1.1").Success? && parseFloat("1").Success?
    ensures Load(MissingSectionConfig(), parseFloat) == Outcome(Failure(InvalidConfig), [MissingSection("level_20")])
  {
    LoadThreeLevels(MissingSectionConfig(), parseFloat);
    MissingSectionEntries(parseFloat);
  }

  lemma JunkLayout()
    ensures LevelsSetting(map[SettingsSection := Settings("f00")]) == Some("f00") && ',' !in "f00"
    ensures ParseInt("f00").Failure?
  {
    ParseIntForeignChar("f00", 0);
  }

  lemma ScenarioLevelJunk(parseFloat: FloatParser)
    ensures Load(map[SettingsSection := Settings("f00")], parseFloat) == Outcome(Failure(InvalidConfig), [InvalidLevel("f00")])
  {
    var config := map[SettingsSection := Settings("f00")];
    JunkLayout();
    LoadOneToken(config, parseFloat, "f00");
  }

  lemma ScenarioMissingKillMultiplier(parseFloat: FloatParser)
    ensures Load(OneLevelConfig("0", map[DamageMultiplier := "1.1", BanLength := "3"]), parseFloat) ==
              Outcome(Failure(InvalidConfig), [MissingOption("kill_multiplier", "level_0")])
  {
    LoadLevelZero(map[DamageMultiplier := "1.1", BanLength := "3"], parseFloat);
  }

  lemma ScenarioMissingDamageMultiplier(parseFloat: FloatParser)
    requires parseFloat("1.3").Success?
    ensures Load(OneLevelConfig("0", map[KillMultiplier := "1.3", BanLength := "3"]), parseFloat) ==
              Outcome(Failure(InvalidConfig), [MissingOption("damage_multiplier", "level_0")])
  {
    LoadLevelZero(map[KillMultiplier := "1.3", BanLength := "3"], parseFloat);
  }

  lemma ScenarioMissingBanLength(parseFloat: FloatParser)
    requires parseFloat("1.3").Success? && parseFloat("1.1").Success?
    ensures Load(OneLevelConfig("0", map[KillMultiplier := "1.3", DamageMultiplier := "1.1"]), parseFloat) ==
              Outcome(Failure(InvalidConfig), [MissingOption("ban_length", "level_0")])
  {
    LoadLevelZero(map[KillMultiplier := "1.3", DamageMultiplier := "1.1"], parseFloat);
  }

  lemma ScenarioBadKillMultiplier(parseFloat: FloatParser)
    requires parseFloat("f00") == Failure(FloatF00Error)
    ensures Load(OneLevelConfig("0", LevelSection("f00", "1.1", "3")), parseFloat) ==
              Outcome(Failure(InvalidConfig), [InvalidValue("kill_multiplier", FloatF00Error)])
  {
    LoadLevelZero(LevelSection("f00", "1.1", "3"), parseFloat);
  }

  lemma ScenarioBadDamageMultiplier(parseFloat: FloatParser)
    requires parseFloat("1.3").Success? && parseFloat("f00") == Failure(FloatF00Error)
    ensures Load(OneLevelConfig("0", LevelSection("1.3", "f00", "3")), parseFloat) ==
              Outcome(Failure(InvalidConfig), [InvalidValue("damage_multiplier", FloatF00Error)])
  {
    LoadLevelZero(LevelSection("1.3", "f00", "3"), parseFloat);
  }

  lemma ScenarioBadBanLength(parseFloat: FloatParser)
    requires parseFloat("1.3").Success? && parseFloat("1.1").Success?
    ensures Load(OneLevelConfig("0", LevelSection("1.3", "1.1", "")), parseFloat) ==
              Outcome(Failure(InvalidConfig), [InvalidValue("ban_length", IntBlankError)])
  {
    ParseIntBlank("");
    assert Repr("") == "''";
    assert "invalid literal for int() with base 10: " + "''" == IntBlankError;
    LoadLevelZero(LevelSection("1.3", "1.1", ""), parseFloat);
  }
}
