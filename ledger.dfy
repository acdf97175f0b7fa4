/** The bot's global `user_data` dictionary: a map from user id to stored
    record, with the bookkeeping functions that mutate it in place. */
module Ledger {
  import opened Wrappers
  import opened Records
  import Quota

  type Users = map<string, Stored>

  /** `uid` has a record with every key present. */
  predicate Known(m: Users, uid: string) {
    uid in m && Complete(m[uid])
  }

  /** The complete record of a known user. */
  function RecordOf(m: Users, uid: string): UserRecord
    requires Known(m, uid)
  {
    View(m[uid])
  }

  /** The dictionary after `ensure_user_data(uid)` (src/main.py:40-61). */
  function Ensured(m: Users, uid: string): (m': Users)
    ensures Known(m', uid)
    ensures m'.Keys == m.Keys + {uid}
    ensures forall k | k in m && k != uid :: m'[k] == m[k]
    // an unknown id gets the default record
    ensures uid !in m ==> RecordOf(m', uid) == Default
    // a known id keeps every value it had and gets defaults for the rest
    ensures uid in m ==> KeepsPresent(m[uid], m'[uid]) && DefaultsMissing(m[uid], m'[uid])
    // a user whose record is already complete is left as is
    ensures Known(m, uid) ==> m' == m
  {
    if uid in m then m[uid := Fill(m[uid])] else m[uid := Store(Default)]
  }

  /** Ensuring a user twice is the same as ensuring once. */
  lemma EnsuredIdempotent(m: Users, uid: string)
    ensures Ensured(Ensured(m, uid), uid) == Ensured(m, uid)
  {
  }

  /** The dictionary after `add_points(uid, p)` (src/main.py:64-67). */
  function Credited(m: Users, uid: string, p: int): (m': Users)
    ensures Known(m', uid)
    ensures m'.Keys == m.Keys + {uid}
    ensures forall k | k in m && k != uid :: m'[k] == m[k]
    ensures RecordOf(m', uid) == RecordOf(Ensured(m, uid), uid).(points := RecordOf(m', uid).points)
    ensures RecordOf(m', uid).points == RecordOf(Ensured(m, uid), uid).points + p
  {
    var e := Ensured(m, uid);
    var r := RecordOf(e, uid);
    e[uid := Store(r.(points := r.points + p))]
  }

  /** The user's record replaced by `r`, everyone else untouched. */
  function WithRecord(m: Users, uid: string, r: UserRecord): (m': Users)
    ensures Known(m', uid) && RecordOf(m', uid) == r
    ensures m'.Keys == m.Keys + {uid}
    ensures forall k | k in m && k != uid :: m'[k] == m[k]
  {
    m[uid := Store(r)]
  }

  class UserLedger {
    var users: Users

    /** The dictionary read by `load_user_data` at start-up. */
    constructor (loaded: Users)
      ensures users == loaded
    {
      users := loaded;
    }

    /** `ensure_user_data` (src/main.py:40-61). */
    method EnsureUser(uid: string)
      modifies this
      ensures users == Ensured(old(users), uid)
    {
      if uid !in users {
        users := users[uid := Store(Default)];
      } else {
        users := users[uid := Fill(users[uid])];
      }
    }

    /** `add_points` (src/main.py:64-67). */
    method AddPoints(uid: string, p: int)
      modifies this
      ensures users == Credited(old(users), uid, p)
    {
      EnsureUser(uid);
      var r := View(users[uid]);
      users := users[uid := Store(r.(points := r.points + p))];
    }

    /** `is_premium` (src/main.py:70-72). */
    method IsPremium(uid: string) returns (premium: bool)
      modifies this
      ensures users == Ensured(old(users), uid)
      ensures premium == RecordOf(users, uid).premium
    {
      EnsureUser(uid);
      premium := users[uid].premium.value;
    }

    /** `is_banned` (src/main.py:75-77). */
    method IsBanned(uid: string) returns (banned: bool)
      modifies this
      ensures users == Ensured(old(users), uid)
      ensures banned == RecordOf(users, uid).banned
    {
      EnsureUser(uid);
      banned := users[uid].banned.value;
    }

    /** `reset_isshonk_uses` (src/main.py:80-90). The source indexes the
        record directly, so the caller must have ensured the user first. */
    method ResetIsshonkUses(uid: string, now: Time)
      requires Known(users, uid)
      modifies this
      ensures users == WithRecord(old(users), uid, Quota.MonthlyReset(RecordOf(old(users), uid), now))
    {
      var r := View(users[uid]);
      if r.isshonkReset.Some? {
        if now > r.isshonkReset.value + Quota.MONTH {
          users := users[uid := Store(r.(isshonkUses := 0, isshonkReset := Some(now)))];
        }
      } else {
        users := users[uid := Store(r.(isshonkReset := Some(now)))];
      }
    }
  }
}
