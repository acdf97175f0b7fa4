/** The `isshonk_queue` deque of review requests (user id, image URL), the
    queue-position lookup and the reading of the reviewer's console answer. */
module ReviewQueue {
  import opened Wrappers

  datatype Request = Request(user: string, image: string)

  /** `[item[0] for item in isshonk_queue]`. */
  function Requesters(q: seq<Request>): (us: seq<string>)
    ensures |us| == |q|
    ensures forall i | 0 <= i < |q| :: us[i] == q[i].user
  {
    seq(|q|, i requires 0 <= i < |q| => q[i].user)
  }

  /** Python's `list.index`: the first index holding `x`. */
  function IndexOf(xs: seq<string>, x: string): (i: nat)
    requires x in xs
    ensures i < |xs| && xs[i] == x
    ensures forall j | 0 <= j < i :: xs[j] != x
  {
    if xs[0] == x then 0 else 1 + IndexOf(xs[1..], x)
  }

  /** The 1-based queue position of the user's first request, or `None`
      when the user has none queued (src/main.py:168-169). */
  function PositionOf(q: seq<Request>, uid: string): (pos: Option<nat>)
    ensures pos.None? <==> forall i | 0 <= i < |q| :: q[i].user != uid
    ensures pos.Some? ==> 1 <= pos.value <= |q| && q[pos.value - 1].user == uid
    ensures pos.Some? ==> forall i | 0 <= i < pos.value - 1 :: q[i].user != uid
  {
    var us := Requesters(q);
    if uid in us then Some(IndexOf(us, uid) + 1) else None
  }

  /** No user has two requests in the queue. */
  ghost predicate OnePerUser(q: seq<Request>) {
    forall i, j | 0 <= i < j < |q| :: q[i].user != q[j].user
  }

  /** A request appended by a user with none queued sits at the tail. */
  lemma AppendedIsLast(q: seq<Request>, r: Request)
    requires r.user !in Requesters(q)
    ensures PositionOf(q + [r], r.user) == Some(|q| + 1)
    ensures OnePerUser(q) ==> OnePerUser(q + [r])
  {
    var q' := q + [r];
    forall i | 0 <= i < |q| ensures q'[i].user != r.user {
      assert Requesters(q)[i] == q[i].user;
    }
    assert q'[|q|] == r;
  }

  /** Removing the first `k` requests ahead of a user moves that user `k`
      places forward: third in line is first once two are resolved. */
  lemma PositionAfterPops(q: seq<Request>, uid: string, k: nat)
    requires PositionOf(q, uid).Some? && k < PositionOf(q, uid).value
    ensures PositionOf(q[k..], uid) == Some(PositionOf(q, uid).value - k)
  {
    var p := PositionOf(q, uid).value;
    var rest := q[k..];
    assert rest[p - 1 - k] == q[p - 1];
    var after := PositionOf(rest, uid);
    assert after.Some?;
    assert rest[after.value - 1] == q[after.value - 1 + k];
  }

  /** A user queued behind two others is third in line, and first once the
      two requests ahead have been popped. */
  lemma ThirdInLine(a: Request, b: Request, uid: string, image: string)
    requires a.user != uid && b.user != uid
    ensures PositionOf([a, b, Request(uid, image)], uid) == Some(3)
    ensures PositionOf([a, b, Request(uid, image)][2..], uid) == Some(1)
  {
    var r := Request(uid, image);
    var us := Requesters([a, b, r]);
    assert us == [a.user, b.user, uid];
    assert us[1..] == [b.user, uid] && us[1..][1..] == [uid];
    assert IndexOf(us, uid) == 2;
    assert [a, b, r][2..] == [r];
    assert Requesters([r]) == [uid];
  }

  class IsshonkQueue {
    var entries: seq<Request>

    /** No user has two requests queued. The source never states it; the
        constructor establishes it and every operation that changes the
        queue is proved to preserve it. */
    ghost predicate Valid()
      reads this
    {
      OnePerUser(entries)
    }

    /** `deque()`: an empty queue. */
    constructor ()
      ensures entries == [] && Valid()
    {
      entries := [];
    }

    /** The duplicate check and the append of src/main.py:186-193: a user
        with a queued request is refused and the queue is left unchanged;
        anyone else joins at the tail. */
    method Enqueue(r: Request) returns (queued: bool)
      modifies this
      ensures queued <==> r.user !in Requesters(old(entries))
      ensures entries == if queued then old(entries) + [r] else old(entries)
      ensures old(Valid()) ==> Valid()
    {
      if r.user in Requesters(entries) {
        queued := false;
      } else {
        AppendedIsLast(entries, r);
        entries := entries + [r];
        queued := true;
      }
    }

    /** `popleft` (src/main.py:198). */
    method PopLeft() returns (r: Request)
      requires entries != []
      modifies this
      ensures r == old(entries)[0] && entries == old(entries)[1..]
      ensures old(Valid()) ==> Valid()
    {
      r := entries[0];
      entries := entries[1..];
    }
  }

  /** The reviewer's verdict on a request (src/main.py:204-209). */
  datatype Verdict = Yes | No | Invalid

  /** The ASCII characters Python's `str.strip()` removes. */
  predicate IsSpace(c: char) {
    c == ' ' || '\t' <= c <= '\r' || '\U{1C}' <= c <= '\U{1F}'
  }

  /** `s` with its leading white space removed. */
  function TrimLeading(s: string): string {
    if s != [] && IsSpace(s[0]) then TrimLeading(s[1..]) else s
  }

  /** `s` with its trailing white space removed. */
  function TrimTrailing(s: string): string {
    if s != [] && IsSpace(s[|s| - 1]) then TrimTrailing(s[..|s| - 1]) else s
  }

  /** Trimming the front removes exactly the maximal run of leading white
      space: what is left is a suffix that is empty or starts with a
      non-space, and everything removed is white space. */
  lemma {:induction false} TrimLeadingRemovesSpace(s: string)
    ensures var t := TrimLeading(s);
      && |t| <= |s| && t == s[|s| - |t|..]
      && (forall i | 0 <= i < |s| - |t| :: IsSpace(s[i]))
      && (t == [] || !IsSpace(t[0]))
  {
    if s != [] && IsSpace(s[0]) {
      var rest := s[1..];
      var t := TrimLeading(rest);
      TrimLeadingRemovesSpace(rest);
      assert rest[|rest| - |t|..] == s[|s| - |t|..];
      forall i | 0 <= i < |s| - |t| ensures IsSpace(s[i]) {
        if i > 0 { assert s[i] == rest[i - 1]; }
      }
    }
  }

  /** Trimming the back removes exactly the maximal run of trailing white
      space. */
  lemma {:induction false} TrimTrailingRemovesSpace(s: string)
    ensures var t := TrimTrailing(s);
      && |t| <= |s| && t == s[..|t|]
      && (forall i | |t| <= i < |s| :: IsSpace(s[i]))
      && (t == [] || !IsSpace(t[|t| - 1]))
  {
    if s != [] && IsSpace(s[|s| - 1]) {
      var rest := s[..|s| - 1];
      var t := TrimTrailing(rest);
      TrimTrailingRemovesSpace(rest);
      assert rest[..|t|] == s[..|t|];
      forall i | |t| <= i < |s| ensures IsSpace(s[i]) {
        if i < |s| - 1 { assert s[i] == rest[i]; }
      }
    }
  }

  function LowerChar(c: char): char {
    if 'A' <= c <= 'Z' then (c as int - 'A' as int + 'a' as int) as char else c
  }

  /** `s.lower()` on ASCII letters. */
  function Lower(s: string): string {
    seq(|s|, i requires 0 <= i < |s| => LowerChar(s[i]))
  }

  /** `input(...).strip().lower()` (src/main.py:202). */
  function Normalize(answer: string): string {
    Lower(TrimTrailing(TrimLeading(answer)))
  }

  /** The verdict a console answer stands for: "yes", "no", or anything
      else, once white space and case are stripped (src/main.py:202-209). */
  function Classify(answer: string): Verdict {
    var n := Normalize(answer);
    if n == "yes" then Yes else if n == "no" then No else Invalid
  }

  /** The answer " YES\n" reads as yes. */
  lemma ClassifyExample()
    ensures Classify(" YES\n") == Yes
  {
    assert " YES\n"[1..] == "YES\n" && "YES\n"[..3] == "YES";
    assert TrimLeading(" YES\n") == "YES\n";
    assert TrimTrailing("YES\n") == "YES";
    assert Lower("YES") == "yes" by {
      assert |Lower("YES")| == 3;
      assert Lower("YES")[0] == 'y' && Lower("YES")[1] == 'e' && Lower("YES")[2] == 's';
    }
  }

  ghost predicate AllSpace(s: string) {
    forall i | 0 <= i < |s| :: IsSpace(s[i])
  }

  lemma {:induction false} TrimLeadingSpacePrefix(pre: string, s: string)
    requires AllSpace(pre)
    ensures TrimLeading(pre + s) == TrimLeading(s)
  {
    if pre == [] {
      assert pre + s == s;
    } else {
      assert (pre + s)[0] == pre[0] && (pre + s)[1..] == pre[1..] + s;
      TrimLeadingSpacePrefix(pre[1..], s);
    }
  }

  lemma {:induction false} TrimTrailingSpaceSuffix(s: string, post: string)
    requires AllSpace(post)
    ensures TrimTrailing(s + post) == TrimTrailing(s)
  {
    if post == [] {
      assert s + post == s;
    } else {
      var n := |post| - 1;
      assert (s + post)[|s + post| - 1] == post[n];
      assert (s + post)[..|s + post| - 1] == s + post[..n];
      TrimTrailingSpaceSuffix(s, post[..n]);
    }
  }

  lemma {:induction false} TrimLeadingAppend(s: string, post: string)
    ensures TrimLeading(s + post) ==
      if TrimLeading(s) == [] then TrimLeading(post) else TrimLeading(s) + post
  {
    if s == [] {
      assert [] + post == post;
    } else if IsSpace(s[0]) {
      assert (s + post)[1..] == s[1..] + post;
      TrimLeadingAppend(s[1..], post);
    }
  }

  /** White space around an answer does not change its verdict. */
  lemma ClassifyIgnoresSurroundingSpace(pre: string, answer: string, post: string)
    requires AllSpace(pre) && AllSpace(post)
    ensures Classify(pre + answer + post) == Classify(answer)
  {
    var inner := TrimLeading(answer);
    assert pre + answer + post == pre + (answer + post);
    TrimLeadingSpacePrefix(pre, answer + post);
    TrimLeadingAppend(answer, post);
    if inner == [] {
      TrimLeadingSpacePrefix(post, []);
      assert post + [] == post;
    } else {
      TrimTrailingSpaceSuffix(inner, post);
    }
    assert TrimTrailing(TrimLeading(pre + answer + post)) == TrimTrailing(inner);
    assert Normalize(pre + answer + post) == Normalize(answer);
  }

  lemma LowerKeepsSpace(c: char)
    ensures IsSpace(LowerChar(c)) <==> IsSpace(c)
  {
  }

  lemma {:induction false} TrimLeadingLower(s: string)
    ensures TrimLeading(Lower(s)) == Lower(TrimLeading(s))
  {
    if s != [] {
      LowerKeepsSpace(s[0]);
      if IsSpace(s[0]) {
        assert Lower(s)[1..] == Lower(s[1..]);
        TrimLeadingLower(s[1..]);
      }
    }
  }

  lemma {:induction false} TrimTrailingLower(s: string)
    ensures TrimTrailing(Lower(s)) == Lower(TrimTrailing(s))
  {
    if s != [] {
      var n := |s| - 1;
      LowerKeepsSpace(s[n]);
      if IsSpace(s[n]) {
        assert Lower(s)[..n] == Lower(s[..n]);
        TrimTrailingLower(s[..n]);
      }
    }
  }

  /** Upper and lower case do not change the verdict. */
  lemma ClassifyIgnoresCase(answer: string)
    ensures Classify(Lower(answer)) == Classify(answer)
  {
    TrimLeadingLower(answer);
    TrimTrailingLower(TrimLeading(answer));
    var t := TrimTrailing(TrimLeading(answer));
    assert TrimTrailing(TrimLeading(Lower(answer))) == Lower(t);
    assert Lower(Lower(t)) == Lower(t);
    assert Normalize(Lower(answer)) == Normalize(answer);
  }
}
