/**
 * Resolution of a giveaway: the threshold test each entrant must pass, the
 * order-preserving list of entrants who pass it, and the draws that stand
 * in for `random.sample` and `random.choice`.
 */
module Selection {
  import opened Engagement

  function Min(a: int, b: int): int
  {
    if a <= b then a else b
  }

  /** No user appears twice. */
  predicate Distinct(s: seq<UserId>)
  {
    forall i, j :: 0 <= i < j < |s| ==> s[i] != s[j]
  }

  /**
   * The requirement test of the giveaway loop, written as its cascade of
   * cases.  A requirement that is not positive is not required; the two
   * requirements are OR-combined, and with neither set everyone passes.
   */
  function Passed(msgs: nat, vc: real, msgReq: int, vcReq: int): (passed: bool)
    ensures passed <==>
      (msgReq <= 0 && vcReq <= 0) ||
      (msgReq > 0 && msgs >= msgReq) ||
      (vcReq > 0 && vc >= vcReq as real)
  {
    if msgReq > 0 && vcReq > 0 then msgs >= msgReq || vc >= vcReq as real
    else if msgReq > 0 then msgs >= msgReq
    else if vcReq > 0 then vc >= vcReq as real
    else true
  }

  /** The test applied to what the tracker holds for `u` (missing entries read as 0). */
  predicate Eligible(c: Counters, u: UserId, msgReq: int, vcReq: int)
  {
    Passed(MessagesOf(c, u), MinutesOf(c, u), msgReq, vcReq)
  }

  /** `valid_users`: the entrants who pass, in the order they were listed. */
  function Filter(c: Counters, users: seq<UserId>, msgReq: int, vcReq: int): (valid: seq<UserId>)
    ensures |valid| <= |users|
    ensures forall u :: u in valid <==> u in users && Eligible(c, u, msgReq, vcReq)
    ensures Distinct(users) ==> Distinct(valid)
    decreases |users|
  {
    if users == [] then []
    else
      var init := users[..|users| - 1];
      var last := users[|users| - 1];
      var rest := Filter(c, init, msgReq, vcReq);
      assert users == init + [last];
      assert Distinct(users) ==> last !in init;
      if Eligible(c, last, msgReq, vcReq) then rest + [last] else rest
  }

  /** Removing position `i` of a list without repeats leaves a list without repeats that lacks `s[i]`. */
  lemma RemoveAt(s: seq<UserId>, i: nat)
    requires i < |s|
    ensures multiset(s) == multiset(s[..i] + s[i + 1..]) + multiset{s[i]}
    ensures Distinct(s) ==> Distinct(s[..i] + s[i + 1..]) && s[i] !in s[..i] + s[i + 1..]
  {
    assert s == s[..i] + [s[i]] + s[i + 1..];
    var t := s[..i] + s[i + 1..];
    if Distinct(s) {
      forall a, b | 0 <= a < b < |t| ensures t[a] != t[b] {
        var a' := if a < i then a else a + 1;
        var b' := if b < i then b else b + 1;
        assert t[a] == s[a'] && t[b] == s[b'];
      }
      forall a | 0 <= a < |t| ensures t[a] != s[i] {
        assert t[a] == s[if a < i then a else a + 1];
      }
    }
  }

  /** Drawing position `i` first, then some draws `more` from what is left, is a draw from `pool`. */
  lemma DrawFirst(pool: seq<UserId>, i: nat, more: seq<UserId>)
    requires i < |pool|
    requires multiset(more) <= multiset(pool[..i] + pool[i + 1..])
    requires Distinct(pool[..i] + pool[i + 1..]) ==> Distinct(more)
    ensures multiset([pool[i]] + more) <= multiset(pool)
    ensures forall w :: w in [pool[i]] + more ==> w in pool
    ensures Distinct(pool) ==> Distinct([pool[i]] + more)
  {
    var rest := pool[..i] + pool[i + 1..];
    RemoveAt(pool, i);
    forall w | w in [pool[i]] + more ensures w in pool {
      assert w in multiset([pool[i]] + more);
    }
    if Distinct(pool) {
      assert pool[i] !in multiset(rest);
      var w := [pool[i]] + more;
      forall a, b | 0 <= a < b < |w| ensures w[a] != w[b] {
        if a == 0 { assert w[b] == more[b - 1]; }
        else { assert w[a] == more[a - 1] && w[b] == more[b - 1]; }
      }
    }
  }

  /**
   * `random.sample(pool, k)`: `k` draws without replacement.  The random
   * source is the list `picks`: the n-th draw takes position
   * `picks[n] % |remaining|` of what is left (position 0 once `picks` runs out).
   */
  function Sample(pool: seq<UserId>, k: nat, picks: seq<nat>): (winners: seq<UserId>)
    requires k <= |pool|
    ensures |winners| == k
    ensures multiset(winners) <= multiset(pool)
    ensures forall w :: w in winners ==> w in pool
    ensures Distinct(pool) ==> Distinct(winners)
    decreases k
  {
    if k == 0 then []
    else
      var i := if picks == [] then 0 else picks[0] % |pool|;
      var later := if picks == [] then [] else picks[1..];
      var more := Sample(pool[..i] + pool[i + 1..], k - 1, later);
      DrawFirst(pool, i, more);
      [pool[i]] + more
  }

  /** `random.choice(users)`, with the draw `pick` as the random source; every entry can be drawn. */
  function Choice(users: seq<UserId>, pick: nat): (winner: UserId)
    requires users != []
    ensures winner in users
    ensures pick < |users| ==> winner == users[pick]
  {
    users[pick % |users|]
  }

  /**
   * A giveaway that requires two messages and no voice time, started with
   * nobody in voice: an entrant who sent two messages qualifies and one who
   * sent none does not, so a one-winner draw names the first, whatever the
   * random source.
   */
  lemma TwoMessagesQualify(now: Timestamp, a: UserId, b: UserId, picks: seq<nat>)
    requires a != b
    ensures Filter(Run(WindowStart([], now), [Message(a, false), Message(a, false)]), [a, b], 2, 0) == [a]
    ensures Sample(Filter(Run(WindowStart([], now), [Message(a, false), Message(a, false)]), [a, b], 2, 0), 1, picks) == [a]
  {
    var c := Run(WindowStart([], now), [Message(a, false), Message(a, false)]);
    var c1 := AfterMessage(WindowStart([], now), a, false);
    assert c == Run(AfterMessage(c1, a, false), []);
    assert MessagesOf(c, a) == 2;
    assert MessagesOf(c, b) == 0 by {
      assert EntryOf(c, b) == EntryOf(WindowStart([], now), b);
    }
    assert [a, b][..1] == [a];
  }
}
