# ShonkBot bookkeeping core in Dafny

This project models the bookkeeping behind ShonkBot's Discord commands, all in
`src/main.py`. The chat platform, the network and the file system are left out.
The model has five parts:

- **User ledger** (`records.dfy`, `ledger.dfy`). The global `user_data`
  dictionary is the class `Ledger.UserLedger`. It holds a map from user id to
  a stored record. A stored record is a JSON object whose keys may be missing,
  so each key is a `Field` (`Missing` or `Present`). `ensure_user_data`,
  `add_points`, `is_premium`, `is_banned` and `reset_isshonk_uses` are methods
  that update the map in place. Each is tied to a pure function
  (`Ensured`, `Credited`, `Quota.MonthlyReset`) whose properties are proved.
- **Monthly quota** (`quota.dfy`). The 30-day rolling reset, the refusal at
  5 uses for users who are not premium, and the increment after a review.
- **Daily cooldown** (`quota.dfy`, `commands.dfy`). A claim is refused for one
  day after the last one. A successful claim stamps the time and appends the
  picture's file name to the user's collection.
- **Review queue** (`review_queue.dfy`, `commands.dfy`). The deque of
  `(user, image)` requests is the class `ReviewQueue.IsshonkQueue`. The model
  covers the duplicate check, the append, the 1-based position lookup, the
  reading of the reviewer's answer, and the drain loop. The drain loop pops
  every entry, reviews only the caller's, and drops the rest, exactly as the
  code does.
- **Archive partitioner** (`archive.dfy`). The stored files are sorted by size,
  largest first, with a stable sort. They are then packed first-fit into parts
  of at most 8 MiB, except that a single larger file gets a part of its own.
  The model includes the photo count.

Each command handler (`/isshonk`, `/daily`, `/shonkcollect`, `/shonklib`) has
two forms in `commands.dfy`:

- a method that runs step by step on the ledger and the queue;
- for `/isshonk` and `/daily`, a pure function stating the whole outcome,
  which the method is proved to match.

Time is a whole number of seconds. An empty timestamp string is `None`.
`timedelta(days=30)` is 2592000 seconds and `timedelta(days=1)` is 86400.
These inputs become parameters:

- the clock (`now`);
- the reviewer's console answer (`answer`);
- the outcome of fetching a random picture (`fetched`: its URL, or `None` when
  the request or the save raised);
- the directory listing (`walk`) and file sizes (`sizeOf`).

## Model

| member | source | states |
|---|---|---|
| Records.Default | src/main.py:42-50 | the fresh record: points 0, premium and banned false, 0 uses, both stamps unset, no shonks; `Ensured` states that an unknown id gets exactly it |
| Records.Store | src/main.py:42-50 | a complete record is stored with every one of the seven keys present |
| Records.StoreThenView | src/main.py:42-50 | reading back a stored complete record gives the same record |
| Records.View | src/main.py:40-61 | reading a stored record that has every key present and storing it again gives back the same stored record |
| Records.SetDefault | src/main.py:54-60 | `setdefault` on one key: a present key keeps its value; a missing key gets the default |
| Records.Fill | src/main.py:54-60 | the seven `setdefault` calls leave every key present, keep each value that was present, default each missing key, and change nothing in a record that was already complete |
| Ledger.Ensured | src/main.py:40-61 | after ensuring, the user is known and other users are untouched; an unknown id gets points 0, premium and banned false, 0 uses, empty stamps and no shonks; a known id keeps every present value and only gains the missing keys |
| Ledger.EnsuredIdempotent | src/main.py:40-61 | ensuring a user twice gives the same dictionary as ensuring once |
| Ledger.Credited | src/main.py:64-67 | `add_points(u, p)` raises u's points by exactly p; every other field of u and every other user is unchanged |
| Ledger.UserLedger.constructor | src/main.py:26-37 | the ledger starts from the loaded dictionary |
| Ledger.UserLedger.EnsureUser | src/main.py:40-61 | the map after the call is `Ensured` of the map before it |
| Ledger.UserLedger.AddPoints | src/main.py:64-67 | the map after the call is `Credited` of the map before it |
| Ledger.UserLedger.IsPremium | src/main.py:70-72 | ensures the user and returns the premium flag of the ensured record |
| Ledger.UserLedger.IsBanned | src/main.py:75-77 | ensures the user and returns the banned flag of the ensured record |
| Ledger.UserLedger.ResetIsshonkUses | src/main.py:80-90 | only the caller's record changes, and it becomes `MonthlyReset` of the old record at `now` |
| Quota.WindowExpired | src/main.py:84 | the window is over when a stamp is set and strictly more than 30 days have passed; `MonthlyReset` restarts the window exactly in that case |
| Quota.MonthlyReset | src/main.py:80-90 | only the counter and its stamp can change; an expired window (more than 30 days old) restarts with 0 uses at `now`; an unexpired window is left alone; an unset stamp is set to `now` and the counter is kept; afterwards a window is always running |
| Quota.MonthlyResetIdempotent | src/main.py:80-90 | applying the reset twice at the same moment changes nothing more |
| Quota.ExpiredWindowReadmits | src/main.py:176-180 | a user who is not premium and has used all 5 requests is refused; at any time more than 30 days after the stamp the user is admitted again, and after the review exactly one use is counted |
| Quota.OverLimit | src/main.py:178 | the refusal test: not premium and at least 5 uses; `Isshonk` answers LimitReached exactly when it holds after the reset, and `ExpiredWindowReadmits` shows it cleared by an expired window |
| Quota.Consume | src/main.py:212-214 | a review adds exactly one use for a user who is not premium, leaves a premium user's record unchanged, and changes no other field |
| Quota.Claim | src/main.py:362-363 | a claim sets the daily stamp to `now`, appends exactly the file name to `shonks` (so it grows by one), and changes nothing else |
| Quota.CooldownActive | src/main.py:336-338 | the daily refusal: a stamp is set and `now` is less than one day after it; `CooldownLastsOneDay` and `Daily` state when claims are refused |
| Quota.CooldownLastsOneDay | src/main.py:336-340 | after a claim at t0, another claim is refused exactly when the time is before t0 plus one day |
| ReviewQueue.Requesters | src/main.py:168 | the list of user ids lines up with the queue entry by entry |
| ReviewQueue.IndexOf | src/main.py:169 | `list.index` returns the first index that holds the value |
| ReviewQueue.PositionOf | src/main.py:166-172 | returns None exactly when the user has no entry; otherwise the 1-based position of the user's first entry |
| ReviewQueue.AppendedIsLast | src/main.py:186-193 | a request from a user with no queued entry lands at position length+1 and keeps one entry per user |
| ReviewQueue.PositionAfterPops | src/main.py:197-198 | popping k entries that are ahead of a user moves that user k places forward |
| ReviewQueue.ThirdInLine | src/main.py:168-169 | a user queued behind two other users is at position 3, and at position 1 once the two ahead are popped |
| ReviewQueue.IsshonkQueue.constructor | src/main.py:22 | the queue starts empty |
| ReviewQueue.IsshonkQueue.Enqueue | src/main.py:186-193 | the request is refused, with the queue unchanged, exactly when its user already has an entry; otherwise it is appended at the tail; one entry per user is preserved |
| ReviewQueue.IsshonkQueue.PopLeft | src/main.py:198 | returns the head of the queue and leaves the rest |
| ReviewQueue.TrimLeadingRemovesSpace | src/main.py:202 | stripping the front removes exactly the leading run of white space |
| ReviewQueue.TrimTrailingRemovesSpace | src/main.py:202 | stripping the back removes exactly the trailing run of white space |
| ReviewQueue.Classify | src/main.py:202-209 | the answer is stripped and lower-cased, then read as yes, no or invalid; `ClassifyIgnoresSurroundingSpace`, `ClassifyIgnoresCase` and `ClassifyExample` state its properties |
| ReviewQueue.ClassifyExample | src/main.py:202-209 | the answer " YES\n" is read as yes |
| ReviewQueue.ClassifyIgnoresSurroundingSpace | src/main.py:202-209 | white space around an answer does not change the verdict |
| ReviewQueue.ClassifyIgnoresCase | src/main.py:202-209 | lower-casing an answer does not change the verdict |
| Archive.SortBySizeDesc | src/main.py:278 | the stable descending sort by size; `SortIsOrderedPermutation` and `SortStable` state that it permutes, orders and keeps ties in input order |
| Archive.SortIsOrderedPermutation | src/main.py:278 | the sort returns the same files (as a multiset), largest first |
| Archive.SortStable | src/main.py:278 | for every size, files of that size come out of the sort in their input order |
| Archive.Place | src/main.py:284-292 | one file placed first fit; `PlaceFirstFit`, `PlacePermutes` and `PlaceWellFormed` state where it goes and what it preserves |
| Archive.PlaceFirstFit | src/main.py:282-292 | a file joins the first part that has room and no other part changes; when no part has room it opens a new last part |
| Archive.PlacePermutes | src/main.py:282-292 | placing a file adds exactly that file to the contents of the parts |
| Archive.PlaceWellFormed | src/main.py:282-292 | placing a file keeps every part non-empty, with its size equal to the sum of its files, and over 8 MiB only when it holds a single file |
| Archive.PackFromPermutes | src/main.py:282-292 | placing a sequence of files adds exactly those files |
| Archive.PackFromWellFormed | src/main.py:282-292 | placing a sequence of files keeps every part well formed |
| Archive.Pack | src/main.py:277-292 | each input file lands in exactly one part (the multiset is preserved); parts are well formed; there are never more parts than files |
| Archive.PartsAtMostFiles | src/main.py:290-292 | well-formed parts are never more numerous than the files they hold |
| Archive.PartitionFiles | src/main.py:277-292 | the nested loop with its `placed` flag computes `Pack`, so it preserves the files and keeps every part well formed |
| Archive.Listing | src/main.py:270-275 | the `(path, size)` list in walk order; `CollectFiles` is proved to build it and `CountIsListingLength` relates its length to the count |
| Archive.CountPhotos | src/main.py:315 | the sum of the per-directory file counts; `CountIsListingLength` and `ArchiveHoldsEveryPhoto` state that it equals the number of listed and archived files |
| Archive.CollectFiles | src/main.py:270-275 | the nested `os.walk` loop lists every file of every directory in walk order, one entry per photo |
| Archive.CountIsListingLength | src/main.py:315 | the photo count equals the number of files the archive loop lists |
| Archive.ArchiveHoldsEveryPhoto | src/main.py:270-315 | the parts of the archive hold exactly as many files as the photo count reports |
| Archive.SortFiveFiveThree | src/main.py:278 | files of 5, 5 and 3 MiB keep their order under the stable sort |
| Archive.PackFiveFiveThree | src/main.py:281-292 | 5, 5 and 3 MiB pack into two parts: the 3 MiB file joins the first 5 MiB part (8 MiB) and the second 5 MiB file is alone |
| Archive.TwoPartsForFiveFiveThree | src/main.py:277-292 | sorting then packing 5, 5 and 3 MiB gives exactly two parts |
| Archive.OversizedFileAlone | src/main.py:277-292 | a single 10 MiB file gets one part of its own, with size 10 MiB |
| Commands.Isshonk | src/main.py:157-214 | other users are never touched. Banned is answered exactly when the ensured record is banned, with no other change. `-q` is answered exactly when the user is not banned and the option is `-q`; it reports `PositionOf` and changes nothing. LimitReached is answered exactly when the user is not premium and has at least 5 uses after the reset, and only the reset is kept; a premium user is never refused. NoAttachment is answered exactly when the user passes the limit and sends no attachment; AlreadyQueued exactly when there is an attachment and the user already has an entry; both leave the queue unchanged and keep only the reset of the caller's record. A reviewed request is classified from the answer, costs a user who is not premium exactly one use, empties the queue and drops every other user's request |
| Commands.EveryAnswerCounts | src/main.py:200-214 | a first request is reviewed and costs one use, whatever the answer, invalid answers included |
| Commands.MonthlyLimitScenario | src/main.py:176-214 | at 5 uses the user is refused, with nothing changed, at every time up to and including 30 days after the stamp; one second later the window restarts and the review is its first use |
| Commands.IsshonkCommand | src/main.py:157-214 | the handler run on the ledger and the queue ends in the state and outcome that `Isshonk` states, and keeps one entry per user |
| Commands.ReviewCaller | src/main.py:200-214 | when the caller's entry comes up, the verdict is the classified answer and the caller's record is consumed once |
| Commands.DrainQueue | src/main.py:196-214 | the loop empties the queue, reviews the caller's entry (the last one), consumes one use, and drops every earlier entry, in order |
| Commands.LastSegment | src/main.py:355 | the file name is the tail of the URL after its last '/', and contains no '/' |
| Commands.Daily | src/main.py:325-378 | other users are untouched. A banned user is refused. A claim is refused, with no change, while the last one is less than a day old. A failed fetch or save changes nothing; a URL ending in '/' names no file and fails too. A successful claim stamps `now`, appends exactly the URL's file name to `shonks` and changes nothing else |
| Commands.DailyCooldownScenario | src/main.py:334-364 | for URLs that end in a file name: a claim at t0 succeeds; another at t0 + 23h59m is refused; one at t0 + 24h is allowed |
| Commands.DailyCommand | src/main.py:325-378 | the handler run on the ledger ends in the state and outcome that `Daily` states |
| Commands.ShonkCollectCommand | src/main.py:380-390 | a user who is not banned gets the length of their `shonks` list |
| Commands.ClaimRaisesCollection | src/main.py:361-390 | each successful daily claim raises the collection count by exactly one |
| Commands.ShonklibCommand | src/main.py:258-323 | with `-d` the parts are `Pack` of the listed files: well formed, holding every listed file, and as many as the photo count; with `-c` the photo count; any other option is invalid; a banned user is refused |

## Left out

- JSON persistence is not modelled. `load_user_data` becomes the ledger's
  initial map, and `save_user_data` has no counterpart, so a write that fails
  is not modelled.
- The Discord bot object, command registration, the `on_ready` and
  `/balance` handlers, and the text of every `ctx.send` are left out. Each
  command returns a typed outcome instead of a message. The `on_message`
  handler is left out too; the `add_points` call it makes for every message
  is modelled.
- The `/blahaj` command and the ten-minute `download_blahaj_images` task are
  network and file-writing code with no bookkeeping, so they are left out.
- HTTP requests are left out. `/daily` receives the fetched URL, or `None`
  when the request or the save raised.
- The console `input()` call is the `answer` parameter.
- Logging is not modelled.
- Timestamps are integer seconds. ISO-8601 formatting and parsing, and
  sub-second precision, are not modelled.
- Concurrency between handlers is not modelled: the model runs each handler
  without interleaving, while the source can interleave at every `await`
  (for `/isshonk`, between the append and the drain, and between reviews).
- Zip writing, sending the parts, `temp_storage` clean-up and the exception
  handler of `/shonklib` are file I/O. `os.walk` and `os.path.getsize`
  become the `walk` and total `sizeOf` parameters, so a size lookup that
  raises is not modelled.
- Archive.Join: `os.path.join` is modelled only for a plain file name
  joined to a directory path.
- Archive.Partition stores each file's size next to its path, where the
  source stores the path alone, so that the size of a part can be stated
  as the sum of its files.
- ReviewQueue.Classify: `strip()` and `lower()` are modelled on ASCII only.
  The white space is space, `\t` through `\r` and `\x1c` through `\x1f`.
  Unicode white space and non-ASCII case mapping are not modelled.
- Commands.DrainQueue: the loop is modelled as written. Other users'
  requests that are still queued are dropped unreviewed. The caller's answer is read once, because after the
  duplicate check the caller's entry is the only one of theirs in the queue.
- Archive.SortBySizeDesc: ties keep their input order, because Python's
  `list.sort` is stable; they are not broken by path.
- Archive.PackFiveFiveThree: first fit puts the 3 MiB file into the first
  5 MiB part, so the parts are {5 MiB, 3 MiB} (8 MiB), then {5 MiB}.
