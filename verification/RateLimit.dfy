/**
The sliding-window rate limiter of backend/middleware/ratelimit.go for one key. Times are
nanoseconds; the sorted set scores a request by its microsecond and names it by its
nanosecond. One check runs without interference from other checks, Redis is up, and the
clock is strictly increasing.
*/
module RateLimit {
  import opened Wrappers

  const SECOND: nat := 1_000_000_000

  /** The microsecond a time falls in. */
  function Micro(t: int): int { t / 1000 }

  lemma MicroMonotone(s: int, t: int)
    requires s <= t
    ensures Micro(s) <= Micro(t)
  {
  }

  lemma MicroLater(s: int, t: int)
    requires Micro(s) < Micro(t)
    ensures s < t
  {
  }

  /** The latest microsecond that a check at `now` trims away. */
  function Cutoff(now: int, window: nat): int { Micro(now - window) }

  /** The key's time to live: the window and one second, of which the store keeps the whole seconds. */
  function TimeToLive(window: nat): nat { (window + SECOND) / SECOND * SECOND }

  lemma KeyOutlivesWindow(window: nat)
    ensures TimeToLive(window) > window
  {
  }

  ghost predicate Increasing(ts: seq<int>) { forall i, j :: 0 <= i < j < |ts| ==> ts[i] < ts[j] }

  /** The requests later than a cutoff. */
  ghost function After(ts: seq<int>, cutoff: int): set<int> { set t | t in ts && Micro(t) > cutoff }

  /** Request `i` and the requests, admitted or not, that arrived before it and that its check still counts. */
  ghost function Recent(ts: seq<int>, window: nat, i: nat): set<int>
    requires i < |ts|
  {
    After(ts[..i], Cutoff(ts[i], window)) + {ts[i]}
  }

  /** Request `i` is let through when the requests its check counts number at most `limit`. */
  ghost predicate Admitted(ts: seq<int>, window: nat, limit: int, i: nat)
    requires i < |ts|
  {
    |Recent(ts, window, i)| <= limit
  }

  // ---------------------------------------------------------------------------
  // The stored set
  // ---------------------------------------------------------------------------

  ghost predicate VerdictsAre(ts: seq<int>, window: nat, limit: int, verdicts: seq<bool>) {
    && |verdicts| == |ts|
    && forall i: nat :: i < |ts| ==> (verdicts[i] <==> Admitted(ts, window, limit, i))
  }

  /** The stored set is what the latest check counted, and the key outlives the window that began then. */
  ghost predicate StoreAgrees(ts: seq<int>, window: nat, entries: map<int, int>, expireAt: Option<int>) {
    && (forall m :: m in entries ==> entries[m] == Micro(m))
    && (ts == [] ==> entries == map[])
    && (ts != [] ==>
          && entries.Keys == Recent(ts, window, |ts| - 1)
          && (expireAt.Some? ==> expireAt.value > ts[|ts| - 1] + window))
  }

  /** The stored set after the commands of one check. */
  function Touched(entries: map<int, int>, expireAt: Option<int>, now: int, window: nat): map<int, int> {
    var kept := if expireAt.Some? && expireAt.value <= now then map[] else entries;
    (map m | m in kept && kept[m] > Micro(now - window) :: kept[m])[now := Micro(now)]
  }

  /** An earlier request that is recent enough now is still stored. */
  lemma StillStored(ts: seq<int>, window: nat, entries: map<int, int>, expireAt: Option<int>, now: int, t: int)
    requires Increasing(ts) && (ts != [] ==> ts[|ts| - 1] < now) && StoreAgrees(ts, window, entries, expireAt)
    requires t in After(ts, Cutoff(now, window))
    ensures t in entries && (expireAt.Some? ==> now < expireAt.value)
  {
    var i :| 0 <= i < |ts| && ts[i] == t;
    var n := |ts| - 1;
    var last := ts[n];
    MicroMonotone(last - window, now - window);
    if last + window <= now {
      MicroMonotone(t, now - window);
    }
    assert i < n ==> ts[..n][i] == t;
  }

  /**
  The entries that an expired key loses, and those that earlier checks trimmed, are all too
  old for the check at `now`, as long as the key outlives the window.
  */
  lemma TouchedIsRecent(ts: seq<int>, window: nat, entries: map<int, int>, expireAt: Option<int>, now: int)
    requires Increasing(ts) && (ts != [] ==> ts[|ts| - 1] < now) && StoreAgrees(ts, window, entries, expireAt)
    ensures Touched(entries, expireAt, now, window).Keys == After(ts, Cutoff(now, window)) + {now}
  {
    var touched := Touched(entries, expireAt, now, window);
    forall t | t in After(ts, Cutoff(now, window)) ensures t in touched {
      StillStored(ts, window, entries, expireAt, now, t);
    }
    forall t | t in touched && t != now ensures t in After(ts, Cutoff(now, window)) {
      var n := |ts| - 1;
      assert t in Recent(ts, window, n);
      if t in ts[..n] {
        assert t in ts;
      }
    }
  }

  lemma RecentOfLast(ts: seq<int>, window: nat, now: int)
    ensures Recent(ts + [now], window, |ts|) == After(ts, Cutoff(now, window)) + {now}
  {
    var all := ts + [now];
    assert all[..|ts|] == ts && all[|ts|] == now;
  }

  lemma AgreesAfter(ts: seq<int>, window: nat, touched: map<int, int>, now: int, expiry: int)
    requires touched.Keys == After(ts, Cutoff(now, window)) + {now} && expiry > now + window
    requires forall m :: m in touched ==> touched[m] == Micro(m)
    ensures StoreAgrees(ts + [now], window, touched, Some(expiry))
    ensures |touched| == |Recent(ts + [now], window, |ts|)|
  {
    RecentOfLast(ts, window, now);
    assert |touched| == |touched.Keys|;
  }

  /** Whatever the expiry is, once it is later than the end of the window. */
  lemma StoreStaysInStep(
      ts: seq<int>, window: nat, entries: map<int, int>, expireAt: Option<int>, now: int, expiry: int)
    requires Increasing(ts) && (ts != [] ==> ts[|ts| - 1] < now) && StoreAgrees(ts, window, entries, expireAt)
    requires expiry > now + window
    ensures Increasing(ts + [now])
    ensures StoreAgrees(ts + [now], window, Touched(entries, expireAt, now, window), Some(expiry))
    ensures |Touched(entries, expireAt, now, window)| == |Recent(ts + [now], window, |ts|)|
  {
    TouchedIsRecent(ts, window, entries, expireAt, now);
    AgreesAfter(ts, window, Touched(entries, expireAt, now, window), now, expiry);
  }

  lemma VerdictsGrow(ts: seq<int>, window: nat, limit: int, verdicts: seq<bool>, now: int, verdict: bool)
    requires VerdictsAre(ts, window, limit, verdicts)
    requires verdict <==> Admitted(ts + [now], window, limit, |ts|)
    ensures VerdictsAre(ts + [now], window, limit, verdicts + [verdict])
  {
    var all := ts + [now];
    forall i: nat | i < |ts| ensures Admitted(all, window, limit, i) <==> Admitted(ts, window, limit, i) {
      assert all[..i] == ts[..i] && all[i] == ts[i];
    }
  }

  // ---------------------------------------------------------------------------
  // The limiter
  // ---------------------------------------------------------------------------

  class Limiter {
    const window: nat
    const limit: int
    // the sorted set, as member -> score, and the key's expiry
    var entries: map<int, int>
    var expireAt: Option<int>
    // every request so far, and whether it was let through
    ghost var arrivals: seq<int>
    ghost var verdicts: seq<bool>

    ghost predicate Valid()
      reads this
    {
      && Increasing(arrivals) && VerdictsAre(arrivals, window, limit, verdicts)
      && StoreAgrees(arrivals, window, entries, expireAt)
    }

    constructor (limit: int, window: nat)
      ensures Valid() && arrivals == [] && this.limit == limit && this.window == window
    {
      this.limit, this.window := limit, window;
      entries, expireAt, arrivals, verdicts := map[], None, [], [];
    }

    /** The pipeline of store commands: trim, add, count, renew the expiry. */
    method Touch(now: int) returns (count: nat)
      modifies this`entries, this`expireAt
      ensures entries == Touched(old(entries), old(expireAt), now, window)
      ensures count == |entries| && expireAt == Some(now + TimeToLive(window))
    {
      if expireAt.Some? && expireAt.value <= now {
        entries := map[];
      }
      var cutoff := Micro(now - window);
      entries := map m | m in entries && entries[m] > cutoff :: entries[m];
      entries := entries[now := Micro(now)];
      count := |entries|;
      expireAt := Some(now + TimeToLive(window));
    }

    /**
    The count is of all requests later than the microsecond in which the window began,
    whether they were let through or not; the expiry of the key never changes it.
    */
    method CheckRateLimit(now: int) returns (remaining: int)
      requires Valid() && (arrivals != [] ==> arrivals[|arrivals| - 1] < now)
      modifies this
      ensures Valid() && arrivals == old(arrivals) + [now]
      ensures remaining == limit - |Recent(arrivals, window, |arrivals| - 1)|
      ensures verdicts == old(verdicts) + [remaining >= 0]
    {
      KeyOutlivesWindow(window);
      StoreStaysInStep(arrivals, window, entries, expireAt, now, now + TimeToLive(window));
      var count := Touch(now);
      remaining := limit - count;
      VerdictsGrow(arrivals, window, limit, verdicts, now, remaining >= 0);
      arrivals := arrivals + [now];
      verdicts := verdicts + [remaining >= 0];
    }

    /** The middleware's decision. */
    method Handle(now: int) returns (admit: bool)
      requires Valid() && (arrivals != [] ==> arrivals[|arrivals| - 1] < now)
      modifies this
      ensures Valid() && arrivals == old(arrivals) + [now] && verdicts == old(verdicts) + [admit]
      ensures admit <==> Admitted(arrivals, window, limit, |arrivals| - 1)
    {
      var remaining := CheckRateLimit(now);
      admit := remaining >= 0;
    }
  }

  // ---------------------------------------------------------------------------
  // How many requests a window can admit
  // ---------------------------------------------------------------------------

  /** The requests, by number, that arrived in the half-open window of `length` that ends at `end`. */
  ghost function ArrivedIn(ts: seq<int>, length: nat, end: int): set<nat> {
    set i: nat | i < |ts| && end - length < ts[i] <= end
  }

  ghost function AdmittedIn(ts: seq<int>, window: nat, limit: int, length: nat, end: int): set<nat> {
    set i: nat | i < |ts| && end - length < ts[i] <= end && Admitted(ts, window, limit, i)
  }

  ghost function Times(ts: seq<int>, who: set<nat>): set<int>
    requires forall i :: i in who ==> i < |ts|
  {
    set i | i in who :: ts[i]
  }

  /** Requests have different times. */
  lemma {:induction false} AsManyTimes(ts: seq<int>, who: set<nat>)
    requires Increasing(ts) && forall i :: i in who ==> i < |ts|
    ensures |Times(ts, who)| == |who|
  {
    if who == {} {
    } else {
      var i :| i in who;
      AsManyTimes(ts, who - {i});
      assert Times(ts, who) == Times(ts, who - {i}) + {ts[i]};
      assert ts[i] !in Times(ts, who - {i});
    }
  }

  lemma {:induction false} SubsetSize<T>(a: set<T>, b: set<T>)
    requires a <= b
    ensures |a| <= |b|
  {
    if a == {} {
    } else {
      var x :| x in a;
      SubsetSize(a - {x}, b - {x});
    }
  }

  lemma {:induction false} Largest(who: set<nat>) returns (k: nat)
    requires who != {}
    ensures k in who && forall i :: i in who ==> i <= k
  {
    k :| k in who;
    var rest := who - {k};
    if rest == {} {
      assert who == {k};
    } else {
      var m := Largest(rest);
      assert forall i :: i in who ==> i in rest || i == k;
      k := if m > k then m else k;
    }
  }

  /** At most `limit` requests, and none for a limit below zero. */
  function AtMost(limit: int): nat { if limit > 0 then limit else 0 }

  lemma TimesAreRecent(ts: seq<int>, window: nat, who: set<nat>, k: nat)
    requires Increasing(ts) && k in who && forall i :: i in who ==> i < |ts| && i <= k
    requires forall i :: i in who && i < k ==> Micro(ts[i]) > Cutoff(ts[k], window)
    ensures Times(ts, who) <= Recent(ts, window, k)
  {
    forall t | t in Times(ts, who) ensures t in Recent(ts, window, k) {
      var i :| i in who && ts[i] == t;
      assert i < k ==> ts[..k][i] == t;
    }
  }

  /** Admitted requests that the check of the latest among them counted are no more than the limit. */
  lemma CountedTogether(ts: seq<int>, window: nat, limit: int, who: set<nat>)
    requires Increasing(ts)
    requires forall i :: i in who ==> i < |ts| && Admitted(ts, window, limit, i)
    requires forall i, k :: i in who && k in who && i < k ==> Micro(ts[i]) > Cutoff(ts[k], window)
    ensures |who| <= AtMost(limit)
  {
    if who != {} {
      var k := Largest(who);
      TimesAreRecent(ts, window, who, k);
      AsManyTimes(ts, who);
      SubsetSize(Times(ts, who), Recent(ts, window, k));
      assert Admitted(ts, window, limit, k);
    }
  }

  lemma MicroApart(s: int, t: int)
    requires s + 1000 <= t
    ensures Micro(s) < Micro(t)
  {
  }

  /** No more than `length` instants fit into a window of that length. */
  lemma {:induction false} FewInstants(times: set<int>, start: int, length: nat)
    requires forall t :: t in times ==> start < t <= start + length
    ensures |times| <= length
  {
    if length == 0 {
      assert forall t :: t in times ==> false;
    } else {
      var last := start + length;
      FewInstants(times - {last}, start, length - 1);
      if last in times {
        assert times == (times - {last}) + {last};
      }
    }
  }

  /** When a limiter keeps a bound on windows of nanoseconds: the trimming gives up to 999 of them away. */
  predicate Narrow(window: nat, limit: int, length: nat) {
    limit <= 0 || length + 999 <= window || length <= limit
  }

  /** A narrow enough window, wherever it is put, never holds more admitted requests than the limit. */
  lemma AdmissionBound(ts: seq<int>, window: nat, limit: int, end: int, length: nat)
    requires Increasing(ts) && Narrow(window, limit, length)
    ensures |AdmittedIn(ts, window, limit, length, end)| <= AtMost(limit)
  {
    var who := AdmittedIn(ts, window, limit, length, end);
    if limit > 0 && length + 999 > window {
      AsManyTimes(ts, who);
      FewInstants(Times(ts, who), end - length, length);
    } else {
      forall i, k | limit > 0 && i in who && k in who && i < k ensures Micro(ts[i]) > Cutoff(ts[k], window) {
        MicroApart(ts[k] - window, ts[i]);
      }
      forall i | i in who ensures limit > 0 {
        assert ts[i] in Recent(ts, window, i);
      }
      CountedTogether(ts, window, limit, who);
    }
  }

  function UpTo(n: nat): (s: set<nat>)
    ensures |s| == n && forall i: nat :: i in s <==> i < n
  {
    if n == 0 then {} else UpTo(n - 1) + {n - 1}
  }

  lemma AllInWindow(ts: seq<int>, window: nat, limit: int, length: nat, end: int)
    requires forall i: nat :: i < |ts| ==> end - length < ts[i] <= end
    requires forall i: nat :: i < |ts| ==> Admitted(ts, window, limit, i)
    ensures |AdmittedIn(ts, window, limit, length, end)| == |ts|
  {
    assert AdmittedIn(ts, window, limit, length, end) == UpTo(|ts|);
  }

  /** What a check counts is found among any requests that include its own and all those it has not trimmed. */
  lemma CountedAmong(ts: seq<int>, window: nat, i: nat, who: set<nat>)
    requires Increasing(ts) && i < |ts| && i in who && forall j :: j in who ==> j < |ts|
    requires forall j: nat :: j < i && Micro(ts[j]) > Cutoff(ts[i], window) ==> j in who
    ensures |Recent(ts, window, i)| <= |who|
  {
    forall t | t in Recent(ts, window, i) ensures t in Times(ts, who) {
      if t in ts[..i] {
        var j: nat :| j < i && ts[..i][j] == t;
        assert ts[j] == t;
      }
    }
    AsManyTimes(ts, who);
    SubsetSize(Recent(ts, window, i), Times(ts, who));
  }

  /** A check counts no more than its request and those before it. */
  lemma FewEarlier(ts: seq<int>, window: nat, i: nat)
    requires Increasing(ts) && i < |ts|
    ensures |Recent(ts, window, i)| <= i + 1
  {
    CountedAmong(ts, window, i, UpTo(i + 1));
  }

  /** When the cutoff is past the first request, the check of the last one counts one less than there are. */
  lemma FirstForgotten(ts: seq<int>, window: nat, limit: nat)
    requires Increasing(ts) && |ts| == limit + 1 && limit > 0 && Micro(ts[0]) <= Cutoff(ts[limit], window)
    ensures Admitted(ts, window, limit, limit)
  {
    CountedAmong(ts, window, limit, UpTo(limit + 1) - {0});
  }

  /**
  `limit` requests from the last nanosecond of a microsecond on, and one `length - 1` after
  the first of them, whose check finds the first trimmed away.
  */
  lemma CrowdExists(window: nat, limit: nat, length: nat) returns (ts: seq<int>)
    requires !Narrow(window, limit, length)
    ensures Increasing(ts) && |ts| == limit + 1 && ts[limit] == 998 + length
    ensures Micro(ts[0]) <= Cutoff(ts[limit], window)
    ensures forall i :: 0 <= i < |ts| ==> 998 < ts[i] <= 998 + length
  {
    ts := seq(limit + 1, i => if i < limit then 999 + i else 998 + length);
    MicroMonotone(0, ts[limit] - window);
  }

  lemma CrowdMember(ts: seq<int>, window: nat, limit: nat, i: nat)
    requires Increasing(ts) && |ts| == limit + 1 && limit > 0 && Micro(ts[0]) <= Cutoff(ts[limit], window)
    requires i <= limit
    ensures Admitted(ts, window, limit, i)
  {
    if i < limit {
      FewEarlier(ts, window, i);
    } else {
      FirstForgotten(ts, window, limit);
    }
  }

  /** In a wider window the limiter lets one request too many through. */
  lemma CrowdIsAdmitted(ts: seq<int>, window: nat, limit: nat, length: nat, end: int)
    requires Increasing(ts) && |ts| == limit + 1 && limit > 0 && Micro(ts[0]) <= Cutoff(ts[limit], window)
    requires forall i :: 0 <= i < |ts| ==> end - length < ts[i] <= end
    ensures |AdmittedIn(ts, window, limit, length, end)| == limit + 1
  {
    forall i: nat | i < |ts| ensures Admitted(ts, window, limit, i) {
      CrowdMember(ts, window, limit, i);
    }
    AllInWindow(ts, window, limit, length, end);
  }

  /** In every run, no window of `length` nanoseconds holds more admitted requests than the limit. */
  ghost predicate KeepsBound(window: nat, limit: int, length: nat) {
    forall ts, end :: Increasing(ts) ==>
      |AdmittedIn(ts, window, limit, length, end)| <= AtMost(limit)
  }

  lemma AdmittedCrowd(window: nat, limit: nat, length: nat) returns (ts: seq<int>)
    requires !Narrow(window, limit, length)
    ensures Increasing(ts) && |AdmittedIn(ts, window, limit, length, 998 + length)| == limit + 1
  {
    ts := CrowdExists(window, limit, length);
    CrowdIsAdmitted(ts, window, limit, length, 998 + length);
  }

  lemma NarrowIsKept(window: nat, limit: int, length: nat)
    requires Narrow(window, limit, length)
    ensures KeepsBound(window, limit, length)
  {
    forall ts, end | Increasing(ts)
      ensures |AdmittedIn(ts, window, limit, length, end)| <= AtMost(limit)
    {
      AdmissionBound(ts, window, limit, end, length);
    }
  }

  lemma WideIsBroken(window: nat, limit: int, length: nat)
    requires !Narrow(window, limit, length)
    ensures !KeepsBound(window, limit, length)
  {
    var ts := AdmittedCrowd(window, limit, length);
    assert |AdmittedIn(ts, window, limit, length, 998 + length)| > AtMost(limit);
  }

  /**
  Exactly which windows a limiter bounds in every run: those that fall short of the
  configured one by at least 999 nanoseconds. Any are bounded if nothing is ever admitted,
  and so are those too short for more instants than the limit.
  */
  lemma BoundKeptExactly(window: nat, limit: int, length: nat)
    ensures KeepsBound(window, limit, length) <==> Narrow(window, limit, length)
  {
    if Narrow(window, limit, length) {
      NarrowIsKept(window, limit, length);
    } else {
      WideIsBroken(window, limit, length);
    }
  }

  /** With a window of a millisecond and a limit of one, two requests are let through in one millisecond. */
  lemma TwoInOneMillisecond()
    ensures Increasing([999, 1_000_000])
    ensures AdmittedIn([999, 1_000_000], 1_000_000, 1, 1_000_000, 1_000_000) == {0, 1}
  {
    var ts := [999, 1_000_000];
    assert ts[..0] == [] && ts[..1] == [999];
    assert Recent(ts, 1_000_000, 0) == {999};
    assert Recent(ts, 1_000_000, 1) == {1_000_000};
    assert Admitted(ts, 1_000_000, 1, 0) && Admitted(ts, 1_000_000, 1, 1);
  }

  /** The same on the store's clock, in microseconds. */
  ghost function AdmittedInMicros(ts: seq<int>, window: nat, limit: int, length: nat, end: int): set<nat> {
    set i: nat | i < |ts| && end - length < Micro(ts[i]) <= end && Admitted(ts, window, limit, i)
  }

  /** On the store's own clock the configured window is kept in full. */
  lemma AdmissionBoundInMicros(ts: seq<int>, window: nat, limit: int, end: int)
    requires Increasing(ts)
    ensures |AdmittedInMicros(ts, window, limit, window / 1000, end)| <= AtMost(limit)
  {
    var who := AdmittedInMicros(ts, window, limit, window / 1000, end);
    forall i, k | i in who && k in who && i < k ensures Micro(ts[i]) > Cutoff(ts[k], window) {
      CutoffBelow(ts[k], window);
    }
    CountedTogether(ts, window, limit, who);
  }

  lemma CutoffBelow(t: int, window: nat)
    ensures Cutoff(t, window) <= Micro(t) - window / 1000
  {
  }

  /** A limiter that has served any run of requests has kept the bound on every narrow enough window. */
  lemma LimiterKeepsBound(l: Limiter, end: int, length: nat)
    requires l.Valid() && Narrow(l.window, l.limit, length)
    ensures |set i: nat | i < |l.arrivals| && l.verdicts[i] && end - length < l.arrivals[i] <= end|
            <= AtMost(l.limit)
  {
    AdmissionBound(l.arrivals, l.window, l.limit, end, length);
    assert AdmittedIn(l.arrivals, l.window, l.limit, length, end) ==
           set i: nat | i < |l.arrivals| && l.verdicts[i] && end - length < l.arrivals[i] <= end;
  }

  // ---------------------------------------------------------------------------
  // When a request is refused
  // ---------------------------------------------------------------------------

  /** More requests than the limit, let through or not, arrived in the window ending at request `i`. */
  ghost predicate Crowded(ts: seq<int>, window: nat, limit: int, i: nat)
    requires i < |ts|
  {
    |ArrivedIn(ts, window, ts[i])| > limit
  }

  lemma CountedHaveArrived(ts: seq<int>, window: nat, i: nat)
    requires Increasing(ts) && i < |ts| && window > 0
    ensures |Recent(ts, window, i)| <= |ArrivedIn(ts, window, ts[i])|
  {
    forall j: nat | j < i && Micro(ts[j]) > Cutoff(ts[i], window) ensures j in ArrivedIn(ts, window, ts[i]) {
      MicroLater(ts[i] - window, ts[j]);
    }
    CountedAmong(ts, window, i, ArrivedIn(ts, window, ts[i]));
  }

  /** A request is refused only if more requests than the limit, itself included, arrived in its window. */
  lemma RefusedMeansCrowded(ts: seq<int>, window: nat, limit: int, i: nat)
    requires Increasing(ts) && i < |ts| && window > 0
    ensures !Admitted(ts, window, limit, i) ==> Crowded(ts, window, limit, i)
  {
    CountedHaveArrived(ts, window, i);
  }

  /** In every run, a request with a crowded window is refused. */
  ghost predicate RefusesCrowds(window: nat, limit: int) {
    forall ts, i: nat :: Increasing(ts) && i < |ts| && Crowded(ts, window, limit, i) ==>
      !Admitted(ts, window, limit, i)
  }

  /** Nothing is admitted, or no more instants than the limit fit into the window. */
  lemma CrowdIsRefused(ts: seq<int>, window: nat, limit: int, i: nat)
    requires Increasing(ts) && i < |ts| && Crowded(ts, window, limit, i) && (limit <= 0 || window <= limit)
    ensures !Admitted(ts, window, limit, i)
  {
    assert ts[i] in Recent(ts, window, i);
    if limit > 0 {
      var arrived := ArrivedIn(ts, window, ts[i]);
      AsManyTimes(ts, arrived);
      FewInstants(Times(ts, arrived), ts[i] - window, window);
    }
  }

  lemma AllArrived(ts: seq<int>, length: nat, end: int)
    requires forall i :: 0 <= i < |ts| ==> end - length < ts[i] <= end
    ensures |ArrivedIn(ts, length, end)| == |ts|
  {
    assert ArrivedIn(ts, length, end) == UpTo(|ts|);
  }

  lemma CrowdIsLetThrough(window: nat, limit: nat)
    requires 0 < limit < window
    ensures !RefusesCrowds(window, limit)
  {
    var ts := CrowdExists(window, limit, window);
    FirstForgotten(ts, window, limit);
    AllArrived(ts, window, ts[limit]);
    assert Crowded(ts, window, limit, limit);
  }

  /**
  The converse holds in every run only where nothing is admitted or nothing can be crowded:
  a request in the microsecond in which the window began has arrived but is not counted.
  */
  lemma CrowdsRefusedExactly(window: nat, limit: int)
    ensures RefusesCrowds(window, limit) <==> limit <= 0 || window <= limit
  {
    if limit <= 0 || window <= limit {
      forall ts, i: nat | Increasing(ts) && i < |ts| && Crowded(ts, window, limit, i)
        ensures !Admitted(ts, window, limit, i)
      {
        CrowdIsRefused(ts, window, limit, i);
      }
    } else {
      CrowdIsLetThrough(window, limit);
    }
  }

  lemma CutoffExact(t: int, micros: nat)
    ensures Cutoff(t, micros * 1000) == Micro(t) - micros
  {
  }

  /**
  On the store's own clock, and for a window of whole microseconds, a request is refused
  exactly when more requests than the limit, itself and refused ones included, arrived in
  the window ending at it.
  */
  lemma RefusedExactlyInMicros(ts: seq<int>, micros: nat, limit: int, i: nat)
    requires Increasing(ts) && i < |ts| && micros > 0
    ensures var arrived := set j: nat | j <= i && Micro(ts[i]) - micros < Micro(ts[j]);
            !Admitted(ts, micros * 1000, limit, i) <==> |arrived| > limit
  {
    CutoffExact(ts[i], micros);
    var recent := Recent(ts, micros * 1000, i);
    var arrived := set j: nat | j <= i && Micro(ts[i]) - micros < Micro(ts[j]);
    forall t | t in Times(ts, arrived) ensures t in recent {
      var j :| j in arrived && ts[j] == t;
      assert j < i ==> ts[..i][j] == t;
    }
    forall t | t in recent ensures t in Times(ts, arrived) {
      if t == ts[i] {
        assert i in arrived;
      } else {
        var j: nat :| j < |ts[..i]| && ts[..i][j] == t;
        assert ts[j] == t && j in arrived;
      }
    }
    assert recent == Times(ts, arrived);
    AsManyTimes(ts, arrived);
  }
}
