/** The sliding-window limiter on costly actions: it reads only the newest few reservations,
    decides as if it had counted all of them, and so bounds every window
    (convex/aiActionRequests.ts:22-42, convex/aiActionRequestService.ts:3-12). */
module RateLimiter {

  /** One actor performing one named action. */
  datatype Key = Key(actor: nat, action: string)

  datatype Request = Request(key: Key, requestedAt: int)

  /** When this key's reservations were made, in the order they were admitted. */
  function TimesOf(rows: seq<Request>, key: Key): seq<int> {
    if rows == [] then []
    else TimesOf(rows[..|rows| - 1], key) + if rows[|rows| - 1].key == key then [rows[|rows| - 1].requestedAt] else []
  }

  /** How many of them are later than `threshold`. */
  function CountAfter(times: seq<int>, threshold: int): nat {
    if times == [] then 0 else (if times[0] > threshold then 1 else 0) + CountAfter(times[1..], threshold)
  }

  // ---------------------------------------------------------------- the bounded read

  predicate Descending(times: seq<int>) {
    forall i, j :: 0 <= i < j < |times| ==> times[i] >= times[j]
  }

  function InsertDescending(t: int, times: seq<int>): (r: seq<int>)
    requires Descending(times)
    ensures Descending(r) && |r| == |times| + 1
    ensures r[0] == if times == [] || t >= times[0] then t else times[0]
  {
    if times == [] || t >= times[0] then [t] + times
    else [times[0]] + InsertDescending(t, times[1..])
  }

  /** The order of the index, newest first. */
  function NewestFirst(times: seq<int>): (r: seq<int>)
    ensures Descending(r) && |r| == |times|
  {
    if times == [] then [] else InsertDescending(times[0], NewestFirst(times[1..]))
  }

  /** What a read of at most `limit` rows returns. */
  function Newest(times: seq<int>, limit: nat): seq<int> {
    var all := NewestFirst(times);
    if |all| <= limit then all else all[..limit]
  }

  lemma {:induction false} CountAfterAdds(a: seq<int>, b: seq<int>, threshold: int)
    ensures CountAfter(a + b, threshold) == CountAfter(a, threshold) + CountAfter(b, threshold)
  {
    if a == [] {
      assert a + b == b;
    } else {
      assert (a + b)[1..] == a[1..] + b;
      CountAfterAdds(a[1..], b, threshold);
    }
  }

  lemma {:induction false} InsertCounts(t: int, times: seq<int>, threshold: int)
    requires Descending(times)
    ensures CountAfter(InsertDescending(t, times), threshold) == CountAfter([t] + times, threshold)
  {
    if times != [] && t < times[0] {
      InsertCounts(t, times[1..], threshold);
      assert ([t] + times)[1..] == times && ([t] + times[1..])[1..] == times[1..];
    }
  }

  lemma {:induction false} OrderCounts(times: seq<int>, threshold: int)
    ensures CountAfter(NewestFirst(times), threshold) == CountAfter(times, threshold)
  {
    if times != [] {
      OrderCounts(times[1..], threshold);
      InsertCounts(times[0], NewestFirst(times[1..]), threshold);
      assert times == [times[0]] + times[1..];
      CountAfterAdds([times[0]], NewestFirst(times[1..]), threshold);
    }
  }

  /** In a descending list everything later than the threshold comes first. */
  lemma {:induction false} PrefixDecides(times: seq<int>, limit: nat, threshold: int)
    requires Descending(times) && limit <= |times|
    ensures CountAfter(times[..limit], threshold) >= limit <==> CountAfter(times, threshold) >= limit
    ensures CountAfter(times[..limit], threshold) <= limit
  {
    if limit > 0 {
      assert times[..limit][1..] == times[1..][..limit - 1];
      PrefixDecides(times[1..], limit - 1, threshold);
      if times[0] <= threshold {
        NoneAfter(times, threshold);
      }
    }
  }

  lemma {:induction false} NoneAfter(times: seq<int>, threshold: int)
    requires Descending(times) && (times != [] ==> times[0] <= threshold)
    ensures CountAfter(times, threshold) == 0
  {
    if times != [] {
      NoneAfter(times[1..], threshold);
    }
  }

  /** Reading only the newest `limit` rows refuses exactly when counting every row would. */
  lemma BoundedReadDecides(times: seq<int>, limit: nat, threshold: int)
    ensures CountAfter(Newest(times, limit), threshold) >= limit <==> CountAfter(times, threshold) >= limit
  {
    OrderCounts(times, threshold);
    if |times| > limit {
      PrefixDecides(NewestFirst(times), limit, threshold);
    }
  }

  // ------------------------------------------------------------------------- reserve

  class ActionRequests {
    var rows: seq<Request>

    constructor ()
      ensures rows == []
    {
      rows := [];
    }

    method Reserve(key: Key, now: int, windowMs: int, maxRequests: nat) returns (admitted: bool)
      modifies this
      ensures admitted <==> CountAfter(TimesOf(old(rows), key), now - windowMs) < maxRequests
      ensures rows == Reserved(old(rows), Attempt(key, now, windowMs, maxRequests))
      ensures rows == if admitted then old(rows) + [Request(key, now)] else old(rows)
    {
      var recent := Newest(TimesOf(rows, key), maxRequests);
      BoundedReadDecides(TimesOf(rows, key), maxRequests, now - windowMs);
      var requestsInWindow := 0;
      for i := 0 to |recent|
        invariant requestsInWindow + CountAfter(recent[i..], now - windowMs) == CountAfter(recent, now - windowMs)
      {
        assert recent[i..][1..] == recent[i + 1..];
        if recent[i] > now - windowMs {
          requestsInWindow := requestsInWindow + 1;
        }
      }
      if requestsInWindow >= maxRequests {
        return false;
      }
      rows := rows + [Request(key, now)];
      admitted := true;
    }
  }

  // -------------------------------------------------------------------- every window

  datatype Attempt = Attempt(key: Key, now: int, windowMs: int, maxRequests: nat)

  /** The rows after one attempt, judged on the full history. */
  function Reserved(rows: seq<Request>, a: Attempt): seq<Request> {
    if CountAfter(TimesOf(rows, a.key), a.now - a.windowMs) < a.maxRequests then rows + [Request(a.key, a.now)] else rows
  }

  function AfterAll(attempts: seq<Attempt>): seq<Request> {
    if attempts == [] then [] else Reserved(AfterAll(attempts[..|attempts| - 1]), attempts[|attempts| - 1])
  }

  /** Reservations made after `from` and no later than `to`. */
  function CountWithin(times: seq<int>, from: int, to: int): nat {
    if times == [] then 0
    else CountWithin(times[..|times| - 1], from, to) + if from < times[|times| - 1] <= to then 1 else 0
  }

  lemma {:induction false} WithinIsAfter(times: seq<int>, from: int, to: int)
    ensures CountWithin(times, from, to) <= CountAfter(times, from)
  {
    if times != [] {
      var front := times[..|times| - 1];
      WithinIsAfter(front, from, to);
      assert times == front + [times[|times| - 1]];
      CountAfterAdds(front, [times[|times| - 1]], from);
    }
  }

  lemma {:induction false} EarlierThresholdCountsMore(times: seq<int>, low: int, high: int)
    requires low <= high
    ensures CountAfter(times, high) <= CountAfter(times, low)
  {
    if times != [] {
      EarlierThresholdCountsMore(times[1..], low, high);
    }
  }

  /**
   * Whatever is attempted, in whatever order and on whatever clock, no window of the
   * limiter's length ever holds more than the limit - not even if time runs backwards.
   */
  lemma {:induction false} EveryWindowIsBounded(attempts: seq<Attempt>, key: Key, windowMs: int, maxRequests: nat, from: int)
    requires forall a :: a in attempts && a.key == key ==> a.windowMs == windowMs && a.maxRequests == maxRequests
    ensures CountWithin(TimesOf(AfterAll(attempts), key), from, from + windowMs) <= maxRequests
  {
    if attempts != [] {
      var front, a := attempts[..|attempts| - 1], attempts[|attempts| - 1];
      EveryWindowIsBounded(front, key, windowMs, maxRequests, from);
      var rows := AfterAll(front);
      var times := TimesOf(rows, key);
      var after := AfterAll(attempts);
      if after != rows {
        assert after[..|after| - 1] == rows;
        if a.key == key {
          assert TimesOf(after, key) == times + [a.now] && (times + [a.now])[..|times|] == times;
          if from < a.now <= from + windowMs {
            EarlierThresholdCountsMore(times, a.now - windowMs, from);
            WithinIsAfter(times, from, from + windowMs);
          }
        } else {
          assert TimesOf(after, key) == times;
        }
      }
    }
  }

  /** Nothing is refused without cause: the window before a refusal is already full. */
  lemma RefusalsAreJustified(attempts: seq<Attempt>, a: Attempt)
    requires AfterAll(attempts + [a]) == AfterAll(attempts)
    ensures CountAfter(TimesOf(AfterAll(attempts), a.key), a.now - a.windowMs) >= a.maxRequests
  {
    assert (attempts + [a])[..|attempts|] == attempts;
  }

  /** The window is half open: a limit of one admits a second request exactly one window after
      the first, and no sooner. */
  lemma SecondRequest(rows: seq<Request>, key: Key, first: int, now: int, windowMs: int)
    requires TimesOf(rows, key) == [first]
    ensures Reserved(rows, Attempt(key, now, windowMs, 1)) == rows + [Request(key, now)] <==> now >= first + windowMs
  {
    assert CountAfter([first], now - windowMs) == if first > now - windowMs then 1 else 0;
  }
}
