/** The tk plugin's per-player record (`TkInfo`): whom this player has hit, what
    each attacker owes this player, whom this player holds a grudge against, the
    warnings issued for this player's hits, and the last player who hurt them. */
module TkRecord {
  import opened Wrappers
  import Sets

  /** A player's connection id. */
  type Cid = int

  /** A warning record, as far as this model sees it: its liveness flag. */
  datatype Warning = Warning(inactive: bool)

  /** What attacker `c` owes, with no entry counting as nothing. */
  function Owed(owed: map<Cid, int>, c: Cid): int {
    if c in owed then owed[c] else 0
  }

  /** The sum of `owed` over the cids in `victims`. */
  ghost function SumOwed(victims: set<Cid>, owed: map<Cid, int>): int
    decreases victims
  {
    if victims == {} then 0
    else
      Sets.EmptyOrInhabited(victims);
      var c :| c in victims;
      Owed(owed, c) + SumOwed(victims - {c}, owed)
  }

  /** The sum does not depend on the order the cids are taken in: any one of them
      can be taken out first. */
  lemma {:induction false} SumOwedRemove(victims: set<Cid>, owed: map<Cid, int>, c: Cid)
    requires c in victims
    ensures SumOwed(victims, owed) == Owed(owed, c) + SumOwed(victims - {c}, owed)
    decreases victims
  {
    var d :| d in victims && SumOwed(victims, owed) == Owed(owed, d) + SumOwed(victims - {d}, owed);
    if d != c {
      SumOwedRemove(victims - {d}, owed, c);
      SumOwedRemove(victims - {c}, owed, d);
      assert victims - {d} - {c} == victims - {c} - {d};
    }
  }

  /** The sum only looks at the cids it sums over. */
  lemma {:induction false} SumOwedAgree(victims: set<Cid>, f: map<Cid, int>, g: map<Cid, int>)
    requires forall c :: c in victims ==> Owed(f, c) == Owed(g, c)
    ensures SumOwed(victims, f) == SumOwed(victims, g)
    decreases victims
  {
    if victims != {} {
      Sets.EmptyOrInhabited(victims);
      var c :| c in victims;
      SumOwedRemove(victims, f, c);
      SumOwedRemove(victims, g, c);
      SumOwedAgree(victims - {c}, f, g);
    }
  }

  /** A new victim adds exactly what is owed to them. */
  lemma SumOwedInsert(victims: set<Cid>, owed: map<Cid, int>, c: Cid)
    requires c !in victims
    ensures SumOwed(victims + {c}, owed) == SumOwed(victims, owed) + Owed(owed, c)
  {
    SumOwedRemove(victims + {c}, owed, c);
    assert victims + {c} - {c} == victims;
  }

  /** Hitting a new victim who now holds `v` against this player adds exactly `v`. */
  lemma SumOwedAdd(victims: set<Cid>, owed: map<Cid, int>, c: Cid, v: int)
    requires c !in victims
    ensures SumOwed(victims + {c}, owed[c := v]) == SumOwed(victims, owed) + v
  {
    SumOwedInsert(victims, owed[c := v], c);
    SumOwedAgree(victims, owed[c := v], owed);
  }

  /** What each registered player's record says player `me` owes them. */
  ghost function OwedTo(registry: map<Cid, TkInfo>, me: Cid): (owed: map<Cid, int>)
    reads registry.Values
    ensures forall c :: c in registry ==> Owed(owed, c) == registry[c].GetAttackerPoints(me)
    ensures forall c :: c !in registry ==> Owed(owed, c) == 0
  {
    map c | c in registry :: registry[c].GetAttackerPoints(me)
  }

  class TkInfo {
    const cid: Cid
    /** The victims this player has hit (values are always true). */
    var attacked: map<Cid, bool>
    /** The points each attacker owes this player. */
    var attackers: map<Cid, int>
    var grudged: set<Cid>
    /** The warnings issued for this player's hit on each victim. */
    var warnings: map<Cid, Warning>
    var lastAttacker: Option<Cid>
    /** Every warning written to the console, with the victim it was for, in order. */
    ghost var saved: seq<(Cid, Warning)>

    /** The last attacker, when there is one, is one whose points are kept; every
        victim this player has hit is marked true. */
    ghost predicate Valid()
      reads this
    {
      && (lastAttacker.Some? ==> lastAttacker.value in attackers)
      && (forall c :: c in attacked ==> attacked[c])
    }

    constructor (cid: Cid)
      ensures Valid()
      ensures this.cid == cid
      ensures attacked == map[] && attackers == map[] && grudged == {} && warnings == map[]
      ensures lastAttacker == None && saved == []
      ensures forall c :: GetAttackerPoints(c) == 0 && !IsGrudged(c)
      ensures forall registry: map<Cid, TkInfo> :: Points(registry) == 0
    {
      this.cid := cid;
      attacked := map[];
      attackers := map[];
      grudged := {};
      warnings := map[];
      lastAttacker := None;
      saved := [];
    }

    /** The points attacker `c` owes this player: what is stored, or 0 when `c` has
        no entry. */
    function GetAttackerPoints(c: Cid): (p: int)
      reads this
      ensures c in attackers ==> p == attackers[c]
      ensures c !in attackers ==> p == 0
    {
      Owed(attackers, c)
    }

    predicate IsGrudged(c: Cid)
      reads this
    {
      c in grudged
    }

    /** This player's points: over every victim this player has hit, what that
        victim's record says this player owes them. A victim with no record in the
        registry adds nothing. */
    ghost function Points(registry: map<Cid, TkInfo>): int
      reads this, registry.Values
    {
      SumOwed(attacked.Keys, OwedTo(registry, cid))
    }

    /** This player hit victim `c`; the points are not kept here but by the victim. */
    method Damage(c: Cid, points: int)
      requires Valid()
      modifies this`attacked
      ensures Valid()
      ensures attacked == old(attacked)[c := true]
      ensures attacked.Keys == old(attacked).Keys + {c}
      ensures forall registry: map<Cid, TkInfo> {:trigger Points(registry)} :: old(allocated(registry)) && c !in old(attacked) ==>
                Points(registry) == old(Points(registry)) + Owed(OwedTo(registry, cid), c)
    {
      attacked := attacked[c := true];
      assert attacked.Keys == old(attacked).Keys + {c};
      forall registry: map<Cid, TkInfo> | old(allocated(registry)) && c !in old(attacked)
        ensures Points(registry) == old(Points(registry)) + Owed(OwedTo(registry, cid), c)
      {
        var owed, oldOwed := OwedTo(registry, cid), old(OwedTo(registry, cid));
        assert forall k :: k in registry ==> registry[k].attackers == old(registry[k].attackers);
        SumOwedAgree(old(attacked).Keys, owed, oldOwed);
        SumOwedInsert(old(attacked).Keys, owed, c);
      }
    }

    /** Attacker `c` hurt this player for `points`. */
    method Damaged(c: Cid, points: int)
      requires Valid()
      modifies this`attackers, this`lastAttacker
      ensures Valid()
      ensures attackers == old(attackers)[c := old(GetAttackerPoints(c)) + points]
      ensures lastAttacker == Some(c)
      ensures GetAttackerPoints(c) == old(GetAttackerPoints(c)) + points
      ensures forall other :: other != c ==> GetAttackerPoints(other) == old(GetAttackerPoints(other))
    {
      if c in attackers {
        attackers := attackers[c := attackers[c] + points];
      } else {
        attackers := attackers[c := points];
      }
      lastAttacker := Some(c);
    }

    method Grudge(c: Cid)
      requires Valid()
      modifies this`grudged
      ensures Valid()
      ensures grudged == old(grudged) + {c}
      ensures IsGrudged(c)
      ensures forall other :: other != c ==> IsGrudged(other) == old(IsGrudged(other))
    {
      grudged := grudged + {c};
    }

    /** This player forgives attacker `c`: what `c` owes drops to 0, everyone else's
        debt stays, and `c` is no longer the last attacker. */
    method Forgive(c: Cid)
      requires Valid()
      modifies this`attackers, this`lastAttacker
      ensures Valid()
      ensures attackers == if c in old(attackers) then old(attackers)[c := 0] else old(attackers)
      ensures lastAttacker == if old(lastAttacker) == Some(c) then None else old(lastAttacker)
      ensures GetAttackerPoints(c) == 0
      ensures forall other :: other != c ==> GetAttackerPoints(other) == old(GetAttackerPoints(other))
      ensures lastAttacker != Some(c)
    {
      if c in attackers {
        attackers := attackers[c := 0];
      }
      if lastAttacker == Some(c) {
        lastAttacker := None;
      }
    }

    /** Victim `c` forgave this player: `c` is no longer counted as hit, and the
        warning for that hit, if any, is made inactive, saved to the console once and
        no longer held, so forgiving again saves nothing more. */
    method Forgiven(c: Cid)
      requires Valid()
      modifies this`attacked, this`warnings, this`saved
      ensures Valid()
      ensures attacked == old(attacked) - {c}
      ensures warnings == old(warnings) - {c}
      ensures c in old(warnings) ==> saved == old(saved) + [(c, old(warnings)[c].(inactive := true))]
      ensures c !in old(warnings) ==> saved == old(saved)
      ensures forall registry: map<Cid, TkInfo> {:trigger Points(registry)} :: old(allocated(registry)) && c in old(attacked) ==>
                Points(registry) == old(Points(registry)) - Owed(OwedTo(registry, cid), c)
    {
      attacked := attacked - {c};
      if c in warnings {
        var w := warnings[c].(inactive := true);
        saved := saved + [(c, w)];
        warnings := warnings - {c};
      }
      forall registry: map<Cid, TkInfo> | old(allocated(registry)) && c in old(attacked)
        ensures Points(registry) == old(Points(registry)) - Owed(OwedTo(registry, cid), c)
      {
        var owed, oldOwed := OwedTo(registry, cid), old(OwedTo(registry, cid));
        assert forall k :: k in registry ==> registry[k].attackers == old(registry[k].attackers);
        SumOwedAgree(old(attacked).Keys, oldOwed, owed);
        SumOwedRemove(old(attacked).Keys, owed, c);
        assert old(attacked).Keys - {c} == attacked.Keys;
      }
    }
  }
}
