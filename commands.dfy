/** The command handlers of the bot, stripped of the chat platform: each
    takes the ledger (and the review queue) plus the inputs the platform, the
    clock, the console and the network would supply, and returns a typed
    outcome instead of a chat message. Each handler is a method that follows
    the source step by step, and a pure function that states what it does. */
module Commands {
  import opened Wrappers
  import opened Records
  import opened Ledger
  import Quota
  import opened ReviewQueue
  import Archive

  // ---------------------------------------------------------------------
  // /isshonk (src/main.py:157-214)
  // ---------------------------------------------------------------------

  datatype IsshonkOutcome =
    | Banned
    | QueueStatus(position: Option<nat>)
    | LimitReached
    | NoAttachment
    | AlreadyQueued
      /** The caller's request was reviewed; `dropped` are the requests of
          other users that the drain loop popped and discarded. */
    | Reviewed(verdict: Verdict, dropped: seq<Request>)

  datatype IsshonkState = IsshonkState(outcome: IsshonkOutcome, users: Users, queue: seq<Request>)

  /** The caller's record as the quota check of src/main.py:178 sees it:
      ensured, then reset for the current window. */
  function Prepared(users: Users, uid: string, now: Time): UserRecord {
    Quota.MonthlyReset(RecordOf(Ensured(users, uid), uid), now)
  }

  /** What `/isshonk` does to the ledger and the queue and what it answers.
      `option` is the command argument, `attachments` the URLs of the
      message's attachments, `answer` what the reviewer types. */
  function Isshonk(users: Users, queue: seq<Request>, uid: string, option: Option<string>,
                   attachments: seq<string>, answer: string, now: Time): (s: IsshonkState)
    // other users are never touched, and the caller always ends up with a complete record
    ensures s.users.Keys == users.Keys + {uid} && Known(s.users, uid)
    ensures forall k | k in users && k != uid :: s.users[k] == users[k]
    // a banned user is refused before anything but the record's own completion
    ensures s.outcome.Banned? <==> RecordOf(Ensured(users, uid), uid).banned
    ensures s.outcome.Banned? ==> s.users == Ensured(users, uid) && s.queue == queue
    // "-q" reports the 1-based position and changes nothing else
    ensures s.outcome.QueueStatus? <==> !RecordOf(Ensured(users, uid), uid).banned && option == Some("-q")
    ensures s.outcome.QueueStatus? ==>
      s.outcome.position == PositionOf(queue, uid) && s.users == Ensured(users, uid) && s.queue == queue
    // the limit: only a non-premium user at 5 uses is refused, and only the reset is kept
    ensures s.outcome.LimitReached? <==>
      !s.outcome.Banned? && option != Some("-q") && Quota.OverLimit(Prepared(users, uid, now))
    ensures s.outcome.LimitReached? ==>
      s.users == WithRecord(Ensured(users, uid), uid, Prepared(users, uid, now)) && s.queue == queue
    ensures RecordOf(Ensured(users, uid), uid).premium ==> !s.outcome.LimitReached?
    // a request without an attachment, or a second request of the same user, is
    // refused; the queue is left alone and only the reset is kept
    ensures s.outcome.NoAttachment? <==>
      && !RecordOf(Ensured(users, uid), uid).banned && option != Some("-q")
      && !Quota.OverLimit(Prepared(users, uid, now)) && attachments == []
    ensures s.outcome.AlreadyQueued? <==>
      && !RecordOf(Ensured(users, uid), uid).banned && option != Some("-q")
      && !Quota.OverLimit(Prepared(users, uid, now)) && attachments != [] && uid in Requesters(queue)
    ensures s.outcome.NoAttachment? || s.outcome.AlreadyQueued? ==>
      s.users == WithRecord(Ensured(users, uid), uid, Prepared(users, uid, now)) && s.queue == queue
    // a reviewed request costs a non-premium user exactly one use, whatever the answer
    ensures s.outcome.Reviewed? <==>
      && !RecordOf(Ensured(users, uid), uid).banned && option != Some("-q")
      && !Quota.OverLimit(Prepared(users, uid, now)) && attachments != [] && uid !in Requesters(queue)
    ensures s.outcome.Reviewed? ==>
      && s.outcome.verdict == Classify(answer)
      && RecordOf(s.users, uid) == Quota.Consume(Prepared(users, uid, now))
      && (!Prepared(users, uid, now).premium ==>
            RecordOf(s.users, uid).isshonkUses == Prepared(users, uid, now).isshonkUses + 1)
      // the drain empties the queue and everyone else's requests are lost
      && s.queue == [] && s.outcome.dropped == queue
  {
    var ensured := Ensured(users, uid);
    var record := RecordOf(ensured, uid);
    if record.banned then IsshonkState(Banned, ensured, queue)
    else if option == Some("-q") then IsshonkState(QueueStatus(PositionOf(queue, uid)), ensured, queue)
    else
      var reset := Quota.MonthlyReset(record, now);
      var afterReset := WithRecord(ensured, uid, reset);
      if Quota.OverLimit(reset) then IsshonkState(LimitReached, afterReset, queue)
      else if attachments == [] then IsshonkState(NoAttachment, afterReset, queue)
      else if uid in Requesters(queue) then IsshonkState(AlreadyQueued, afterReset, queue)
      else IsshonkState(Reviewed(Classify(answer), queue),
                        WithRecord(afterReset, uid, Quota.Consume(reset)), [])
  }

  /** A first request is reviewed whatever the reviewer answers, and costs
      one use: "yes", "no" and an invalid answer are all counted. */
  lemma EveryAnswerCounts(users: Users, uid: string, url: string, answer: string, now: Time)
    requires uid !in users
    ensures var s := Isshonk(users, [], uid, None, [url], answer, now);
      s.outcome == Reviewed(Classify(answer), []) && RecordOf(s.users, uid).isshonkUses == 1
  {
    assert RecordOf(Ensured(users, uid), uid) == Default;
    var reset := Quota.MonthlyReset(Default, now);
    assert reset.isshonkUses == 0 && !reset.premium && !reset.banned;
  }

  /** A non-premium user with 5 uses is refused, with nothing changed, at
      every time up to and including 30 days after the window's stamp; one
      second later the window restarts and the reviewed request is its
      first use. */
  lemma MonthlyLimitScenario(users: Users, uid: string, stamp: Time, url: string, t: Time)
    requires Known(users, uid)
    requires var r := RecordOf(users, uid);
      !r.banned && !r.premium && r.isshonkUses == Quota.MONTHLY_LIMIT && r.isshonkReset == Some(stamp)
    requires t <= stamp + Quota.MONTH
    ensures var s := Isshonk(users, [], uid, None, [url], "yes", t);
      s.outcome == LimitReached && s.users == users
    ensures var s := Isshonk(users, [], uid, None, [url], "yes", stamp + Quota.MONTH + 1);
      && s.outcome.Reviewed?
      && RecordOf(s.users, uid).isshonkUses == 1
      && RecordOf(s.users, uid).isshonkReset == Some(stamp + Quota.MONTH + 1)
  {
  }

  /** `/isshonk` run on the ledger and the queue (src/main.py:157-214). */
  method IsshonkCommand(ledger: UserLedger, queue: IsshonkQueue, uid: string, option: Option<string>,
                        attachments: seq<string>, answer: string, now: Time)
    returns (outcome: IsshonkOutcome)
    modifies ledger, queue
    ensures IsshonkState(outcome, ledger.users, queue.entries)
         == Isshonk(old(ledger.users), old(queue.entries), uid, option, attachments, answer, now)
    ensures old(queue.Valid()) ==> queue.Valid()
  {
    ledger.EnsureUser(uid);
    var banned := ledger.IsBanned(uid);
    if banned {
      return Banned;
    }
    if option == Some("-q") {
      return QueueStatus(PositionOf(queue.entries, uid));
    }
    ledger.ResetIsshonkUses(uid, now);
    var premium := ledger.IsPremium(uid);
    if !premium && RecordOf(ledger.users, uid).isshonkUses >= Quota.MONTHLY_LIMIT {
      return LimitReached;
    }
    if attachments == [] {
      return NoAttachment;
    }
    var queued := queue.Enqueue(Request(uid, attachments[0]));
    if !queued {
      return AlreadyQueued;
    }
    ghost var pending := old(queue.entries);
    assert queue.entries == pending + [Request(uid, attachments[0])];
    forall i | 0 <= i < |pending| ensures queue.entries[i].user != uid {
      assert Requesters(pending)[i] == pending[i].user;
    }
    assert queue.entries[..|pending|] == pending;
    outcome := DrainQueue(ledger, queue, uid, answer);
  }

  /** The caller's own entry reaches the head of the queue: the console
      answer is classified and, unless the caller is premium, one use of
      the month is counted (src/main.py:200-214). */
  method ReviewCaller(ledger: UserLedger, uid: string, answer: string) returns (verdict: Verdict)
    requires Known(ledger.users, uid)
    modifies ledger
    ensures ledger.users == WithRecord(old(ledger.users), uid, Quota.Consume(RecordOf(old(ledger.users), uid)))
    ensures verdict == Classify(answer)
  {
    verdict := Classify(answer);
    var isPremium := ledger.IsPremium(uid);
    var r := RecordOf(ledger.users, uid);
    if !isPremium {
      ledger.users := ledger.users[uid := Store(r.(isshonkUses := r.isshonkUses + 1))];
    } else {
      assert Store(r) == ledger.users[uid];
    }
  }

  /** The drain loop (src/main.py:197-214) as written: entries of other
      users ahead of the caller are popped and dropped unreviewed. */
  method DrainQueue(ledger: UserLedger, queue: IsshonkQueue, uid: string, answer: string)
    returns (outcome: IsshonkOutcome)
    requires Known(ledger.users, uid)
    requires queue.entries != [] && queue.entries[|queue.entries| - 1].user == uid
    requires forall i | 0 <= i < |queue.entries| - 1 :: queue.entries[i].user != uid
    modifies ledger, queue
    ensures queue.entries == []
    ensures ledger.users == WithRecord(old(ledger.users), uid, Quota.Consume(RecordOf(old(ledger.users), uid)))
    ensures outcome == Reviewed(Classify(answer), old(queue.entries)[..|old(queue.entries)| - 1])
  {
    ghost var drained := queue.entries;
    ghost var base := ledger.users;
    ghost var popped := 0;
    var verdict := Invalid;
    var dropped: seq<Request> := [];
    while queue.entries != []
      invariant popped <= |drained| && queue.entries == drained[popped..]
      invariant popped < |drained| ==> ledger.users == base && dropped == drained[..popped]
      invariant popped == |drained| ==>
        ledger.users == WithRecord(base, uid, Quota.Consume(RecordOf(base, uid))) &&
        dropped == drained[..popped - 1] && verdict == Classify(answer)
      decreases |queue.entries|
    {
      var current := queue.PopLeft();
      assert current == drained[popped];
      if current.user == uid {
        assert popped == |drained| - 1;
        verdict := ReviewCaller(ledger, uid, answer);
      } else {
        dropped := dropped + [current];
        assert drained[..popped + 1] == drained[..popped] + [current];
      }
      popped := popped + 1;
    }
    outcome := Reviewed(verdict, dropped);
  }

  // ---------------------------------------------------------------------
  // /daily (src/main.py:325-378)
  // ---------------------------------------------------------------------

  datatype DailyOutcome =
    | DailyBanned
    | TooSoon
    | FetchFailed
    | Claimed(imageUrl: string, filename: string)

  datatype DailyState = DailyState(outcome: DailyOutcome, users: Users)

  /** `image_url.split('/')[-1]`: what follows the last '/', or the whole
      URL when it has none (src/main.py:355). */
  function LastSegment(url: string): (name: string)
    ensures '/' !in name
    ensures |name| <= |url| && name == url[|url| - |name|..]
    ensures |name| < |url| ==> url[|url| - |name| - 1] == '/'
  {
    if url == [] then []
    else if url[|url| - 1] == '/' then []
    else LastSegment(url[..|url| - 1]) + [url[|url| - 1]]
  }

  /** What `/daily` does. `fetched` is the URL of the random picture, or
      `None` when fetching or saving it raised. A URL ending in '/' names no
      file: `open` on the bare storage directory raises, so the claim fails
      and nothing is recorded (src/main.py:355-358, 376-378). */
  function Daily(users: Users, uid: string, now: Time, fetched: Option<string>): (s: DailyState)
    ensures s.users.Keys == users.Keys + {uid} && Known(s.users, uid)
    ensures forall k | k in users && k != uid :: s.users[k] == users[k]
    ensures s.outcome.DailyBanned? <==> RecordOf(Ensured(users, uid), uid).banned
    // refused while the last claim is less than a day old
    ensures s.outcome.TooSoon? <==>
      !RecordOf(Ensured(users, uid), uid).banned && Quota.CooldownActive(RecordOf(Ensured(users, uid), uid), now)
    ensures s.outcome.FetchFailed? ==> fetched.None? || LastSegment(fetched.value) == []
    // nothing but a successful claim changes the record
    ensures !s.outcome.Claimed? ==> s.users == Ensured(users, uid)
    ensures s.outcome.Claimed? <==>
      && !RecordOf(Ensured(users, uid), uid).banned
      && !Quota.CooldownActive(RecordOf(Ensured(users, uid), uid), now)
      && fetched.Some? && LastSegment(fetched.value) != []
    // a claim stamps the time and adds exactly the picture's file name
    ensures s.outcome.Claimed? ==>
      && s.outcome.imageUrl == fetched.value && s.outcome.filename == LastSegment(fetched.value)
      && RecordOf(s.users, uid).dailyReset == Some(now)
      && RecordOf(s.users, uid).shonks == RecordOf(Ensured(users, uid), uid).shonks + [s.outcome.filename]
      && RecordOf(s.users, uid)
         == RecordOf(Ensured(users, uid), uid).(dailyReset := Some(now), shonks := RecordOf(s.users, uid).shonks)
  {
    var ensured := Ensured(users, uid);
    var record := RecordOf(ensured, uid);
    if record.banned then DailyState(DailyBanned, ensured)
    else if Quota.CooldownActive(record, now) then DailyState(TooSoon, ensured)
    else match fetched
      case None => DailyState(FetchFailed, ensured)
      case Some(url) =>
        var name := LastSegment(url);
        if name == [] then DailyState(FetchFailed, ensured)
        else DailyState(Claimed(url, name), WithRecord(ensured, uid, Quota.Claim(record, now, name)))
  }

  /** Claiming at `t0` and again 23h59m later is refused; exactly 24h later
      it succeeds. Both URLs end in a file name. */
  lemma DailyCooldownScenario(users: Users, uid: string, t0: Time, url1: string, url2: string)
    requires uid !in users
    requires url1 != [] && url1[|url1| - 1] != '/'
    requires url2 != [] && url2[|url2| - 1] != '/'
    ensures var first := Daily(users, uid, t0, Some(url1));
      && first.outcome.Claimed?
      && Daily(first.users, uid, t0 + Quota.DAY - 60, Some(url2)).outcome == TooSoon
      && Daily(first.users, uid, t0 + Quota.DAY, Some(url2)).outcome.Claimed?
  {
  }

  /** `/daily` run on the ledger (src/main.py:325-378). */
  method DailyCommand(ledger: UserLedger, uid: string, now: Time, fetched: Option<string>)
    returns (outcome: DailyOutcome)
    modifies ledger
    ensures DailyState(outcome, ledger.users) == Daily(old(ledger.users), uid, now, fetched)
  {
    ledger.EnsureUser(uid);
    var banned := ledger.IsBanned(uid);
    if banned {
      return DailyBanned;
    }
    var r := RecordOf(ledger.users, uid);
    if r.dailyReset.Some? {
      if now < r.dailyReset.value + Quota.DAY {
        return TooSoon;
      }
    }
    if fetched.None? {
      return FetchFailed;
    }
    var url := fetched.value;
    var filename := LastSegment(url);
    if filename == [] {
      return FetchFailed;
    }
    assert r.(dailyReset := Some(now), shonks := r.shonks + [filename]) == Quota.Claim(r, now, filename);
    ledger.users := ledger.users[uid := Store(r.(dailyReset := Some(now), shonks := r.shonks + [filename]))];
    outcome := Claimed(url, filename);
  }

  // ---------------------------------------------------------------------
  // /shonkcollect (src/main.py:380-390)
  // ---------------------------------------------------------------------

  datatype CollectOutcome = CollectBanned | Collected(count: nat)

  /** `/shonkcollect`: the number of pictures the user has claimed. */
  method ShonkCollectCommand(ledger: UserLedger, uid: string) returns (outcome: CollectOutcome)
    modifies ledger
    ensures ledger.users == Ensured(old(ledger.users), uid)
    ensures outcome.CollectBanned? <==> RecordOf(ledger.users, uid).banned
    ensures outcome.Collected? ==> outcome.count == |RecordOf(ledger.users, uid).shonks|
  {
    ledger.EnsureUser(uid);
    var banned := ledger.IsBanned(uid);
    if banned {
      return CollectBanned;
    }
    outcome := Collected(|ledger.users[uid].shonks.value|);
  }

  /** Every successful daily claim raises the collection count by one. */
  lemma ClaimRaisesCollection(users: Users, uid: string, now: Time, url: string)
    requires Daily(users, uid, now, Some(url)).outcome.Claimed?
    ensures |RecordOf(Daily(users, uid, now, Some(url)).users, uid).shonks|
         == |RecordOf(Ensured(users, uid), uid).shonks| + 1
  {
  }

  // ---------------------------------------------------------------------
  // /shonklib (src/main.py:258-323)
  // ---------------------------------------------------------------------

  datatype LibOutcome =
    | LibBanned
    | Parts(parts: seq<Archive.Partition>)
    | PhotoCount(count: nat)
    | InvalidOption

  /** `/shonklib`: with "-d" the stored files packed into zip parts, with
      "-c" the number of stored photos. `walk` is what `os.walk('storage')`
      lists and `sizeOf` what `os.path.getsize` reports. */
  method ShonklibCommand(ledger: UserLedger, uid: string, option: Option<string>,
                         walk: seq<Archive.WalkDir>, sizeOf: string -> nat)
    returns (outcome: LibOutcome)
    modifies ledger
    ensures ledger.users == Ensured(old(ledger.users), uid)
    ensures outcome.LibBanned? <==> RecordOf(ledger.users, uid).banned
    ensures !outcome.LibBanned? ==>
      (option == Some("-d") <==> outcome.Parts?) && (option == Some("-c") <==> outcome.PhotoCount?)
    ensures outcome.Parts? ==>
      && outcome.parts == Archive.Pack(Archive.Listing(walk, sizeOf))
      && Archive.WellFormed(outcome.parts)
      && multiset(Archive.AllFiles(outcome.parts)) == multiset(Archive.Listing(walk, sizeOf))
      && |Archive.AllFiles(outcome.parts)| == Archive.CountPhotos(walk)
    ensures outcome.PhotoCount? ==> outcome.count == Archive.CountPhotos(walk)
  {
    ledger.EnsureUser(uid);
    var banned := ledger.IsBanned(uid);
    if banned {
      return LibBanned;
    }
    if option == Some("-d") {
      var files := Archive.CollectFiles(walk, sizeOf);
      var parts := Archive.PartitionFiles(files);
      outcome := Parts(parts);
    } else if option == Some("-c") {
      outcome := PhotoCount(Archive.CountPhotos(walk));
    } else {
      outcome := InvalidOption;
    }
  }
}
