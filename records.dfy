/** The per-user record of the bot's ledger, in two forms: as it is stored
    (a JSON object whose keys may be missing) and as the command handlers see
    it once every key has been filled in. */
module Records {
  import opened Wrappers

  /** A point in time, in whole seconds. An empty timestamp string in the
      store is `None`. */
  type Time = int

  /** One key of the stored JSON object: absent, or present with a value. */
  datatype Field<T> = Missing | Present(value: T)

  /** A record as loaded from the store: any key may be missing. */
  datatype Stored = Stored(
    points: Field<int>,
    premium: Field<bool>,
    banned: Field<bool>,
    isshonkUses: Field<int>,
    isshonkReset: Field<Option<Time>>,
    dailyReset: Field<Option<Time>>,
    shonks: Field<seq<string>>)

  /** A record with every key present. */
  datatype UserRecord = UserRecord(
    points: int,
    premium: bool,
    banned: bool,
    isshonkUses: int,
    isshonkReset: Option<Time>,
    dailyReset: Option<Time>,
    shonks: seq<string>)

  /** The record created for a user seen for the first time
      (src/main.py:42-50). */
  const Default: UserRecord := UserRecord(0, false, false, 0, None, None, [])

  predicate Complete(s: Stored) {
    && s.points.Present?
    && s.premium.Present?
    && s.banned.Present?
    && s.isshonkUses.Present?
    && s.isshonkReset.Present?
    && s.dailyReset.Present?
    && s.shonks.Present?
  }

  /** Every key present in `s` has the same value in `t`. */
  predicate KeepsPresent(s: Stored, t: Stored) {
    && (s.points.Present? ==> t.points == s.points)
    && (s.premium.Present? ==> t.premium == s.premium)
    && (s.banned.Present? ==> t.banned == s.banned)
    && (s.isshonkUses.Present? ==> t.isshonkUses == s.isshonkUses)
    && (s.isshonkReset.Present? ==> t.isshonkReset == s.isshonkReset)
    && (s.dailyReset.Present? ==> t.dailyReset == s.dailyReset)
    && (s.shonks.Present? ==> t.shonks == s.shonks)
  }

  /** Every key missing from `s` holds the default value in `t`. */
  predicate DefaultsMissing(s: Stored, t: Stored) {
    && (s.points.Missing? ==> t.points == Present(Default.points))
    && (s.premium.Missing? ==> t.premium == Present(Default.premium))
    && (s.banned.Missing? ==> t.banned == Present(Default.banned))
    && (s.isshonkUses.Missing? ==> t.isshonkUses == Present(Default.isshonkUses))
    && (s.isshonkReset.Missing? ==> t.isshonkReset == Present(Default.isshonkReset))
    && (s.dailyReset.Missing? ==> t.dailyReset == Present(Default.dailyReset))
    && (s.shonks.Missing? ==> t.shonks == Present(Default.shonks))
  }

  /** The stored form of a complete record: every key present. */
  function Store(r: UserRecord): (s: Stored)
    ensures Complete(s)
  {
    Stored(Present(r.points), Present(r.premium), Present(r.banned),
           Present(r.isshonkUses), Present(r.isshonkReset),
           Present(r.dailyReset), Present(r.shonks))
  }

  /** The complete record a stored record with every key present denotes;
      `Store` undoes it. */
  function View(s: Stored): (r: UserRecord)
    requires Complete(s)
    ensures Store(r) == s
  {
    UserRecord(s.points.value, s.premium.value, s.banned.value,
               s.isshonkUses.value, s.isshonkReset.value,
               s.dailyReset.value, s.shonks.value)
  }

  /** Reading a stored complete record gives back the record that was stored. */
  lemma StoreThenView(r: UserRecord)
    ensures View(Store(r)) == r
  {
  }

  /** Python's `dict.setdefault` on one key. */
  function SetDefault<T>(f: Field<T>, d: T): (g: Field<T>)
    ensures g.Present?
    ensures f.Present? ==> g == f
    ensures f.Missing? ==> g.value == d
  {
    match f
    case Present(_) => f
    case Missing => Present(d)
  }

  /** The seven `setdefault` calls of src/main.py:54-60: the result is
      complete, keeps every key that was there and defaults the rest. */
  function Fill(s: Stored): (t: Stored)
    ensures Complete(t)
    ensures KeepsPresent(s, t) && DefaultsMissing(s, t)
    ensures Complete(s) ==> t == s
  {
    Stored(SetDefault(s.points, Default.points),
           SetDefault(s.premium, Default.premium),
           SetDefault(s.banned, Default.banned),
           SetDefault(s.isshonkUses, Default.isshonkUses),
           SetDefault(s.isshonkReset, Default.isshonkReset),
           SetDefault(s.dailyReset, Default.dailyReset),
           SetDefault(s.shonks, Default.shonks))
  }
}
