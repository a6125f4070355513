/** The texts the level loader logs for the broken configurations of the level
    scenarios, character for character. */
module LevelMessages {
  import opened Text
  import opened Levels

  /** Python's own message for `float('f00')`. */
  const FloatF00Error := "could not convert string to float: f00"

  /** Python's own message for `int('')`. */
  const IntBlankError := "invalid literal for int() with base 10: ''"

  /** Two texts glued together, character by character. */
  lemma Glue(a: string, b: string, c: string)
    requires |a| + |b| == |c|
    requires forall i :: 0 <= i < |c| ==> c[i] == if i < |a| then a[i] else b[i - |a|]
    ensures a + b == c
  {
  }

  lemma MessageInvalidLevel()
    ensures Message(InvalidLevel("f00")) == "'f00' is not a valid level number"
  {
    Glue("'", "f00", "'f00");
    Glue("'f00", "'", "'f00'");
    Glue("'f00'", " is not a valid level number", "'f00' is not a valid level number");
  }

  lemma MessageMissingSection()
    ensures Message(MissingSection("level_20")) == "section 'level_20'" + " is missing from the config file"
  {
    Glue("'", "level_20", "'level_20");
    Glue("'level_20", "'", "'level_20'");
    Glue("section ", "'level_20'", "section 'level_20'");
  }

  lemma MessageMissingKillMultiplier()
    ensures Message(MissingOption("kill_multiplier", "level_0")) == "option kill_multiplier is missing in section level_0"
  {
    Glue("option ", "kill_multiplier", "option kill_multiplier");
    Glue("option kill_multiplier", " is missing in section ", "option kill_multiplier is missing in section ");
    Glue("option kill_multiplier is missing in section ", "level_0", "option kill_multiplier is missing in section level_0");
  }

  lemma MessageMissingDamageMultiplier()
    ensures Message(MissingOption("damage_multiplier", "level_0")) == "option damage_multiplier is missing in section level_0"
  {
    Glue("option ", "damage_multiplier", "option damage_multiplier");
    Glue("option damage_multiplier", " is missing in section ", "option damage_multiplier is missing in section ");
    Glue("option damage_multiplier is missing in section ", "level_0", "option damage_multiplier is missing in section level_0");
  }

  lemma MessageMissingBanLength()
    ensures Message(MissingOption("ban_length", "level_0")) == "option ban_length is missing in section level_0"
  {
    Glue("option ", "ban_length", "option ban_length");
    Glue("option ban_length", " is missing in section ", "option ban_length is missing in section ");
    Glue("option ban_length is missing in section ", "level_0", "option ban_length is missing in section level_0");
  }

  lemma MessageBadKillMultiplier()
    ensures Message(InvalidValue("kill_multiplier", FloatF00Error)) == "value for kill_multiplier is invalid. " + FloatF00Error
  {
    Glue("value for ", "kill_multiplier", "value for kill_multiplier");
    Glue("value for kill_multiplier", " is invalid. ", "value for kill_multiplier is invalid. ");
  }

  lemma MessageBadDamageMultiplier()
    ensures Message(InvalidValue("damage_multiplier", FloatF00Error)) == "value for damage_multiplier is invalid. " + FloatF00Error
  {
    Glue("value for ", "damage_multiplier", "value for damage_multiplier");
    Glue("value for damage_multiplier", " is invalid. ", "value for damage_multiplier is invalid. ");
  }

  lemma MessageBadBanLength()
    ensures Message(InvalidValue("ban_length", IntBlankError)) == "value for ban_length is invalid. " + IntBlankError
  {
    Glue("value for ", "ban_length", "value for ban_length");
    Glue("value for ban_length", " is invalid. ", "value for ban_length is invalid. ");
  }
}
