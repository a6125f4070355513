/** Client code replaying the record's documented behaviour step by step; each
    assertion is proved from the contracts of `TkInfo` alone. */
module TkScenarios {
  import opened Wrappers
  import opened TkRecord

  method ScenarioConstruct() {
    var info := new TkInfo(1);
    assert info.lastAttacker == None;
    assert info.attackers == map[] && info.attacked == map[];
    assert info.Points(map[]) == 0;
  }

  method ScenarioDamage() {
    var info := new TkInfo(1);
    assert 2 !in info.attacked;
    info.Damage(2, 5);
    assert info.attacked[2];
    assert info.attackers == map[];
  }

  method ScenarioDamaged() {
    var info := new TkInfo(1);
    info.Damaged(3, 15);
    assert info.attackers[3] == 15;
    info.Damaged(3, 5);
    assert info.attackers[3] == 20;
    info.Damaged(2, 7);
    assert info.attackers[3] == 20 && info.attackers[2] == 7;
    assert info.lastAttacker == Some(2);
  }

  method ScenarioGrudge() {
    var info := new TkInfo(1);
    assert !info.IsGrudged(4);
    info.Grudge(4);
    assert 4 in info.grudged && info.IsGrudged(4);
  }

  method ScenarioGetAttackerPoints(stored: int) {
    var info := new TkInfo(1);
    info.attackers := info.attackers[2 := stored];
    assert info.GetAttackerPoints(2) == stored;
    assert info.GetAttackerPoints(3) == 0;
  }

  /** The points of a player who hit one victim. */
  lemma PointsOfOne(info: TkInfo, registry: map<Cid, TkInfo>, a: Cid)
    requires info.attacked.Keys == {a} && a in registry
    ensures info.Points(registry) == registry[a].GetAttackerPoints(info.cid)
  {
    SumOwedInsert({}, OwedTo(registry, info.cid), a);
    assert {} + {a} == {a};
  }

  /** The points of a player who hit two victims. */
  lemma PointsOfTwo(info: TkInfo, registry: map<Cid, TkInfo>, a: Cid, b: Cid)
    requires info.attacked.Keys == {a, b} && a != b && a in registry && b in registry
    ensures info.Points(registry) == registry[a].GetAttackerPoints(info.cid) + registry[b].GetAttackerPoints(info.cid)
  {
    var owed := OwedTo(registry, info.cid);
    SumOwedInsert({}, owed, a);
    SumOwedInsert({a}, owed, b);
    assert {} + {a} == {a} && {a} + {b} == {a, b};
  }

  /** Player 1 hits player 2 (45 points) and then player 3 (21 points); the points
      are found in the victims' records, through the registry. */
  method ScenarioPoints() {
    var info := new TkInfo(1);
    var info2 := new TkInfo(2);
    var info3 := new TkInfo(3);
    var registry := map[2 := info2, 3 := info3];
    assert info.Points(registry) == 0;

    info.Damage(2, 45);
    info2.Damaged(1, 45);
    assert info.attacked.Keys == {2};
    PointsOfOne(info, registry, 2);
    assert info.Points(registry) == 45;

    info.Damage(3, 21);
    info3.Damaged(1, 21);
    assert info.attacked.Keys == {2, 3};
    PointsOfTwo(info, registry, 2, 3);
    assert info.Points(registry) == 45 + 21;
  }

  method ScenarioLastAttacker() {
    var info := new TkInfo(1);
    assert info.lastAttacker == None;
    info.Damaged(2, 32);
    assert info.lastAttacker == Some(2);
  }

  method ScenarioForgive() {
    var info := new TkInfo(1);
    info.Damaged(2, 75);
    info.Damaged(3, 47);
    assert info.GetAttackerPoints(2) == 75 && info.GetAttackerPoints(3) == 47;
    info.Forgive(2);
    assert info.GetAttackerPoints(2) == 0 && info.GetAttackerPoints(3) == 47;
  }

  method ScenarioForgiveLastAttacker() {
    var info := new TkInfo(1);
    info.Damaged(2, 75);
    info.Damaged(3, 47);
    assert info.lastAttacker == Some(3);
    info.Forgive(3);
    assert info.GetAttackerPoints(2) == 75 && info.GetAttackerPoints(3) == 0;
    assert info.lastAttacker != Some(3);
  }

  method ScenarioForgiven() {
    var info := new TkInfo(1);
    info.attacked := info.attacked[2 := true];
    info.warnings := info.warnings[2 := Warning(false)];
    info.Forgiven(2);
    assert 2 !in info.attacked;
    assert 2 !in info.warnings;
    assert info.saved == [(2, Warning(true))] && info.saved[0].1.inactive;
    info.Forgiven(2);
    assert |info.saved| == 1;
  }
}
