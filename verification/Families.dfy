/**
 Refresh-token families in Redis: one hash per family, one set per actor, each with its own deadline.
 A key whose deadline has passed is absent to every command.
 */
module Families {
  import opened Prelude
  import opened Tables

  type FamilyId = nat
  type Jti = nat

  const TTL: Time := 30 * DAY

  datatype Family = Family(current: Jti, actor: ActorId, expires: Time)

  datatype Index = Index(members: set<FamilyId>, expires: Time)

  datatype Redis = Redis(families: map<FamilyId, Family>, indexes: map<ActorId, Index>)

  datatype Rotation = Rotated(jti: Jti) | Reused | Unknown

  const NO_KEYS := Redis(map[], map[])

  predicate Live(r: Redis, f: FamilyId, now: Time) {
    f in r.families && now < r.families[f].expires
  }

  /** `SMEMBERS` on the actor's index. */
  function Listed(indexes: map<ActorId, Index>, a: ActorId, now: Time): set<FamilyId> {
    if a in indexes && now < indexes[a].expires then indexes[a].members else {}
  }

  /** `SREM`: the set keeps its deadline, and an emptied set is removed. */
  function Unlist(indexes: map<ActorId, Index>, a: ActorId, f: FamilyId, now: Time): map<ActorId, Index> {
    if f !in Listed(indexes, a, now) then indexes
    else if Listed(indexes, a, now) == {f} then indexes - {a}
    else indexes[a := indexes[a].(members := indexes[a].members - {f})]
  }

  function StartFamily(r: Redis, f: FamilyId, jti: Jti, a: ActorId, now: Time): Redis {
    Redis(r.families[f := Family(jti, a, now + TTL)],
          r.indexes[a := Index(Listed(r.indexes, a, now) + {f}, now + TTL)])
  }

  /** The rotate script: only the family key is given a new deadline. */
  function Rotate(r: Redis, f: FamilyId, presented: Jti, next: Jti, a: ActorId, now: Time): (Redis, Rotation) {
    if !Live(r, f, now) then (r, Unknown)
    else if r.families[f].current != presented then (Redis(r.families - {f}, Unlist(r.indexes, a, f, now)), Reused)
    else (r.(families := r.families[f := r.families[f].(current := next, expires := now + TTL)]), Rotated(next))
  }

  function RevokeFamily(r: Redis, f: FamilyId, a: ActorId, now: Time): Redis {
    Redis(r.families - {f}, Unlist(r.indexes, a, f, now))
  }

  function RevokeAll(r: Redis, a: ActorId, now: Time): (Redis, nat) {
    var listed := Listed(r.indexes, a, now);
    if listed == {} then (r, 0) else (Redis(r.families - listed, r.indexes - {a}), |listed|)
  }

  /** The store as it runs, one Redis command after another. */
  class RedisStore {
    var families: map<FamilyId, Family>
    var indexes: map<ActorId, Index>

    function Keys(): Redis
      reads this
    {
      Redis(families, indexes)
    }

    constructor ()
      ensures Keys() == NO_KEYS
    {
      families, indexes := map[], map[];
    }

    /** `SREM` on the index key. */
    method RemoveFromIndex(a: ActorId, f: FamilyId, now: Time)
      modifies this`indexes
      ensures indexes == Unlist(old(indexes), a, f, now)
    {
      if a in indexes && now < indexes[a].expires {
        var left := indexes[a].members - {f};
        if f in indexes[a].members && left == {} {
          assert indexes[a].members == {f};
          indexes := indexes - {a};
        } else {
          assert f !in indexes[a].members ==> left == indexes[a].members && indexes[a := indexes[a].(members := left)] == indexes;
          indexes := indexes[a := indexes[a].(members := left)];
        }
      }
    }

    method Start(f: FamilyId, jti: Jti, a: ActorId, now: Time)
      modifies this
      ensures Keys() == StartFamily(old(Keys()), f, jti, a, now)
    {
      families := families[f := Family(jti, a, now + TTL)];
      if a in indexes && now < indexes[a].expires {
        indexes := indexes[a := indexes[a].(members := indexes[a].members + {f})];
      } else {
        indexes := indexes[a := Index({f}, now + TTL)];
      }
      indexes := indexes[a := indexes[a].(expires := now + TTL)];
      assert indexes[a].members == Listed(old(indexes), a, now) + {f};
      assert indexes == old(indexes)[a := Index(Listed(old(indexes), a, now) + {f}, now + TTL)];
    }

    method RotateScript(f: FamilyId, presented: Jti, next: Jti, a: ActorId, now: Time) returns (out: Rotation)
      modifies this
      ensures (Keys(), out) == Rotate(old(Keys()), f, presented, next, a, now)
    {
      if f !in families || families[f].expires <= now {
        return Unknown;
      }
      if families[f].current != presented {
        families := families - {f};
        RemoveFromIndex(a, f, now);
        return Reused;
      }
      families := families[f := families[f].(current := next)];
      families := families[f := families[f].(expires := now + TTL)];
      assert families == old(families)[f := old(families)[f].(current := next, expires := now + TTL)];
      return Rotated(next);
    }

    method Revoke(f: FamilyId, a: ActorId, now: Time)
      modifies this
      ensures Keys() == RevokeFamily(old(Keys()), f, a, now)
    {
      families := families - {f};
      RemoveFromIndex(a, f, now);
    }

    /** Deletes the listed families one by one, then the index. */
    method RevokeAllForActor(a: ActorId, now: Time) returns (count: nat)
      modifies this
      ensures (Keys(), count) == RevokeAll(old(Keys()), a, now)
    {
      if a !in indexes || indexes[a].expires <= now || indexes[a].members == {} {
        return 0;
      }
      var listed := indexes[a].members;
      var left := listed;
      while left != {}
        invariant left <= listed && indexes == old(indexes)
        invariant families == old(families) - (listed - left)
        decreases |left|
      {
        var f :| f in left;
        families := families - {f};
        left := left - {f};
        assert families == old(families) - (listed - left);
      }
      indexes := indexes - {a};
      assert families == old(families) - listed;
      return |listed|;
    }
  }
}
