/**
 The fixed-window rate limiter: one counter per scope and caller, counted and expired by Redis.
 */
module Throttle {
  import opened Schema
  import opened RedisStore
  import opened Text

  // ------------------------------------------------------------ rate strings

  /** Requests allowed per period of seconds; nothing stops a limit from being negative. */
  datatype Rate = Rate(limit: int, period: nat)

  datatype RateError = MissingPeriod | UnknownPeriod(period: string) | BadLimit(limit: string)

  const PERIOD_SECONDS: map<string, nat> := map["second" := 1, "minute" := 60, "hour" := 3600, "day" := 86400]

  /** The position of the first slash; the length if there is none. */
  function SlashAt(s: string): (i: nat)
    ensures i <= |s|
    ensures i < |s| ==> s[i] == '/'
    ensures forall j :: 0 <= j < i ==> s[j] != '/'
  {
    if s == "" || s[0] == '/' then 0 else 1 + SlashAt(s[1..])
  }

  predicate IsDigit(c: char)
  {
    '0' <= c <= '9'
  }

  function DigitValue(c: char): nat
    requires IsDigit(c)
  {
    c as int - '0' as int
  }

  /** Decimal digits after a first one, single underscores between digits allowed. */
  function MoreDigits(s: string, value: nat): Option<nat>
  {
    if s == "" then Some(value)
    else if IsDigit(s[0]) then MoreDigits(s[1..], 10 * value + DigitValue(s[0]))
    else if s[0] == '_' && |s| > 1 && IsDigit(s[1]) then MoreDigits(s[1..], value)
    else None
  }

  function ParseDigits(s: string): Option<nat>
  {
    if s == "" || !IsDigit(s[0]) then None else MoreDigits(s[1..], DigitValue(s[0]))
  }

  predicate IsSpace(c: char)
  {
    9 <= c as int <= 13 || 28 <= c as int <= 32
  }

  function Stripped(s: string): string
    decreases |s|
  {
    if s == "" then ""
    else if IsSpace(s[0]) then Stripped(s[1..])
    else if IsSpace(s[|s| - 1]) then Stripped(s[..|s| - 1])
    else s
  }

  /** An integer literal: surrounding white space and one sign are allowed. */
  function ParseInt(s: string): Option<int>
  {
    var t := Stripped(s);
    var signed := t != "" && (t[0] == '-' || t[0] == '+');
    var digits := ParseDigits(if signed then t[1..] else t);
    if digits.None? then None
    else
      var n: int := digits.value;
      Some(if signed && t[0] == '-' then -n else n)
  }

  function ParseRate(rate: string): Result<Rate, RateError>
  {
    var i := SlashAt(rate);
    if i == |rate| then Err(MissingPeriod)
    else
      var limit, period := rate[..i], rate[i + 1..];
      if Lower(period) !in PERIOD_SECONDS then Err(UnknownPeriod(period))
      else
        match ParseInt(limit)
        case None => Err(BadLimit(limit))
        case Some(n) => Ok(Rate(n, PERIOD_SECONDS[Lower(period)]))
  }

  /** The decimal digits of a number. */
  function Decimal(n: nat): (s: string)
    ensures s != "" && forall i :: 0 <= i < |s| ==> IsDigit(s[i])
  {
    var last := ('0' as int + n % 10) as char;
    if n < 10 then [last] else Decimal(n / 10) + [last]
  }

  lemma {:induction false} MoreDigitsAppend(s: string, value: nat, last: char)
    requires IsDigit(last) && forall i :: 0 <= i < |s| ==> IsDigit(s[i])
    ensures MoreDigits(s, value).Some?
    ensures MoreDigits(s + [last], value) == Some(10 * MoreDigits(s, value).value + DigitValue(last))
  {
    if s == "" {
      assert [] + [last] == [last];
      assert [last][1..] == "";
    } else {
      assert (s + [last])[1..] == s[1..] + [last];
      MoreDigitsAppend(s[1..], 10 * value + DigitValue(s[0]), last);
    }
  }

  lemma {:induction false} DigitsReadBack(n: nat)
    ensures ParseDigits(Decimal(n)) == Some(n)
  {
    var last := ('0' as int + n % 10) as char;
    if n < 10 {
      assert Decimal(n)[1..] == "";
    } else {
      DigitsReadBack(n / 10);
      var s := Decimal(n / 10);
      assert (s + [last])[1..] == s[1..] + [last];
      MoreDigitsAppend(s[1..], DigitValue(s[0]), last);
    }
  }

  lemma SlashAfter(s: string, t: string)
    requires forall i :: 0 <= i < |s| ==> s[i] != '/'
    ensures SlashAt(s + "/" + t) == |s|
  {
    assert (s + "/" + t)[|s|] == '/';
    assert forall j :: 0 <= j < |s| ==> (s + "/" + t)[j] == s[j];
  }

  /** The four periods, in either case of letters, and their seconds. */
  ghost predicate Lasts(period: string, seconds: nat)
  {
    || (SameText(period, "second") && seconds == 1)
    || (SameText(period, "minute") && seconds == 60)
    || (SameText(period, "hour") && seconds == 60 * 60)
    || (SameText(period, "day") && seconds == 24 * 60 * 60)
  }

  lemma PeriodsMean(period: string, seconds: nat)
    ensures Lower(period) in PERIOD_SECONDS && PERIOD_SECONDS[Lower(period)] == seconds <==> Lasts(period, seconds)
  {
    assert Lower("second") == "second" && Lower("minute") == "minute" && Lower("hour") == "hour" && Lower("day") == "day";
    assert "second"[0] != "minute"[0] && |"second"| == |"minute"| == 6 && |"hour"| == 4 && |"day"| == 3;
    LowerCompares(period, "second");
    LowerCompares(period, "minute");
    LowerCompares(period, "hour");
    LowerCompares(period, "day");
  }

  /** Every limit written in decimal before one of the periods is read as that many requests per its seconds; so with a sign. */
  lemma RateReadsBack(n: nat, period: string, seconds: nat)
    requires Lasts(period, seconds)
    ensures ParseRate(Decimal(n) + "/" + period) == Ok(Rate(n, seconds))
    ensures ParseRate("-" + Decimal(n) + "/" + period) == Ok(Rate(-(n as int), seconds))
  {
    PeriodsMean(period, seconds);
    LimitReadsBack(n, Decimal(n), period);
    LimitReadsBack(n, "-" + Decimal(n), period);
  }

  lemma LimitReadsBack(n: nat, s: string, period: string)
    requires s == Decimal(n) || s == "-" + Decimal(n)
    requires Lower(period) in PERIOD_SECONDS
    ensures ParseRate(s + "/" + period)
         == Ok(Rate(if s == Decimal(n) then n as int else -(n as int), PERIOD_SECONDS[Lower(period)]))
  {
    var rate := s + "/" + period;
    SlashAfter(s, period);
    assert rate[..|s|] == s && rate[|s| + 1..] == period;
    assert Decimal(n)[0] != '-' && IsDigit(Decimal(n)[0]) && IsDigit(Decimal(n)[|Decimal(n)| - 1]);
    assert s[|s| - 1] == Decimal(n)[|Decimal(n)| - 1];
    assert Stripped(s) == s;
    assert s != Decimal(n) ==> s[1..] == Decimal(n);
    DigitsReadBack(n);
  }

  /** Decimal is the usual notation. */
  lemma DecimalIsBaseTen(n: nat, d: nat)
    requires n > 0 && d < 10
    ensures Decimal(0) == "0" && Decimal(1) == "1" && Decimal(9) == "9"
    ensures Decimal(10 * n + d) == Decimal(n) + Decimal(d)
  {
  }

  /** A rate string is in error without a slash, with an unknown period, or with a limit that has no digit. */
  lemma MalformedRates(s: string, t: string)
    ensures (forall i :: 0 <= i < |s| ==> s[i] != '/') ==>
              && ParseRate(s) == Err(MissingPeriod)
              && ((forall seconds :: !Lasts(t, seconds)) ==> ParseRate(s + "/" + t) == Err(UnknownPeriod(t)))
              && ((exists seconds :: Lasts(t, seconds)) && (forall i :: 0 <= i < |s| ==> !IsDigit(s[i])) ==>
                    ParseRate(s + "/" + t) == Err(BadLimit(s)))
  {
    if forall i :: 0 <= i < |s| ==> s[i] != '/' {
      SlashAfter(s, t);
      assert (s + "/" + t)[..|s|] == s && (s + "/" + t)[|s| + 1..] == t;
      if Lower(t) in PERIOD_SECONDS {
        PeriodsMean(t, PERIOD_SECONDS[Lower(t)]);
      }
      if seconds :| Lasts(t, seconds) {
        PeriodsMean(t, seconds);
      }
      if forall i :: 0 <= i < |s| ==> !IsDigit(s[i]) {
        NoDigitsNoLimit(s);
      }
    }
  }

  lemma {:induction false} NoDigitsNoLimit(s: string)
    requires forall i :: 0 <= i < |s| ==> !IsDigit(s[i])
    ensures ParseInt(s) == None
    ensures forall i :: 0 <= i < |Stripped(s)| ==> !IsDigit(Stripped(s)[i])
    decreases |s|
  {
    if s != "" {
      if IsSpace(s[0]) {
        NoDigitsNoLimit(s[1..]);
      } else if IsSpace(s[|s| - 1]) {
        NoDigitsNoLimit(s[..|s| - 1]);
      }
    }
  }

  // -------------------------------------------------------------- a request

  /** The counter of the current window; `expires` is when the window ends. */
  datatype Bucket = Bucket(count: nat, expires: int)

  /** The counter after one more request. */
  function Hit(bucket: Option<Bucket>, now: int, period: nat): Bucket
  {
    if bucket.Some? && now < bucket.value.expires then Bucket(bucket.value.count + 1, bucket.value.expires)
    else Bucket(1, now + period)
  }

  /** What Redis stores under a counter's key. */
  function BucketIn(store: Store, key: RedisKey): Option<Bucket>
  {
    if key in store && store[key].value.Count? then Some(Bucket(store[key].value.count, store[key].expires)) else None
  }

  class Limiter {
    const redis: Redis
    const rates: map<string, string>

    constructor (redis: Redis, rates: map<string, string>)
      ensures this.redis == redis && this.rates == rates
    {
      this.redis, this.rates := redis, rates;
    }

    /**
     A scope without a rate is not limited; a rate that cannot be read is an error before anything is
     counted.  `caller` is the tenant and user as far as they are known.
     */
    method AllowRequest(scope: string, caller: string, now: int) returns (r: Result<bool, RateError>)
      requires ThrottleKey(scope, caller) in redis.store ==> redis.store[ThrottleKey(scope, caller)].value.Count?
      modifies redis
      ensures scope !in rates || rates[scope] == "" ==> r == Ok(true) && redis.store == old(redis.store)
      ensures scope in rates && rates[scope] != "" ==>
                var key := ThrottleKey(scope, caller);
                match ParseRate(rates[scope])
                case Err(e) => r == Err(e) && redis.store == old(redis.store)
                case Ok(rate) =>
                  var bucket := Hit(BucketIn(old(redis.store), key), now, rate.period);
                  && redis.store == old(redis.store)[key := Entry(Count(bucket.count), bucket.expires)]
                  && BucketIn(redis.store, key) == Some(bucket)
                  && r == Ok(bucket.count <= rate.limit)
    {
      if scope !in rates || rates[scope] == "" {
        return Ok(true);
      }
      var parsed := ParseRate(rates[scope]);
      if parsed.Err? {
        return Err(parsed.error);
      }
      var count := redis.IncrementExpiring(ThrottleKey(scope, caller), now, parsed.value.period);
      r := Ok(count <= parsed.value.limit);
    }
  }

  // ------------------------------------------------------- runs of requests

  /** The bucket after the first `n` requests of a trace of arrival times, starting from no bucket. */
  function After(ts: seq<int>, n: nat, period: nat): Option<Bucket>
    requires n <= |ts|
  {
    if n == 0 then None else Some(Hit(After(ts, n - 1, period), ts[n - 1], period))
  }

  predicate Admitted(ts: seq<int>, rate: Rate, i: nat)
    requires i < |ts|
  {
    After(ts, i + 1, rate.period).value.count <= rate.limit
  }

  ghost predicate Ordered(ts: seq<int>)
  {
    forall i, j :: 0 <= i <= j < |ts| ==> ts[i] <= ts[j]
  }

  /** The request that opened the window of request i: the last one that came a period after the one before. */
  function Opener(ts: seq<int>, period: nat, i: nat): (o: nat)
    requires i < |ts|
    ensures o <= i
  {
    if i == 0 then 0
    else
      var o := Opener(ts, period, i - 1);
      if ts[i] < ts[o] + period then o else i
  }

  /** The counter counts the requests of its window, and the window's end was fixed by the one that opened it. */
  lemma {:induction false} BucketCountsTheWindow(ts: seq<int>, period: nat, i: nat)
    requires i < |ts|
    ensures After(ts, i + 1, period) == Some(Bucket(i - Opener(ts, period, i) + 1, ts[Opener(ts, period, i)] + period))
  {
    if i > 0 {
      BucketCountsTheWindow(ts, period, i - 1);
    } else {
      assert After(ts, 0, period) == None;
    }
  }

  /** Each window admits exactly its first `limit` requests, however many are rejected. */
  lemma FirstOfEachWindowAreAdmitted(ts: seq<int>, rate: Rate, i: nat)
    requires i < |ts|
    ensures Admitted(ts, rate, i) <==> i - Opener(ts, rate.period, i) < rate.limit
  {
    BucketCountsTheWindow(ts, rate.period, i);
  }

  /** Windows are intervals of requests: everything between an opener and a request of its window is in it. */
  lemma {:induction false} OpenerBetween(ts: seq<int>, period: nat, i: nat, j: nat)
    requires Ordered(ts) && i <= j < |ts|
    ensures Opener(ts, period, j) == Opener(ts, period, i)
            || (i < Opener(ts, period, j) && ts[Opener(ts, period, j)] >= ts[Opener(ts, period, i)] + period)
    decreases j - i
  {
    if i < j {
      OpenerBetween(ts, period, i, j - 1);
    }
  }

  /** A request that opened a window is the opener of its own window. */
  lemma {:induction false} OpenerOpens(ts: seq<int>, period: nat, i: nat)
    requires i < |ts|
    ensures Opener(ts, period, Opener(ts, period, i)) == Opener(ts, period, i)
  {
    if i > 0 && Opener(ts, period, i) != i {
      OpenerOpens(ts, period, i - 1);
    }
  }

  /** How many requests a window admits. */
  function Allowance(rate: Rate): nat
  {
    if rate.limit < 0 then 0 else rate.limit
  }

  /** The requests of an interval that is a period long, both ends included, that are admitted. */
  ghost function AdmittedFrom(ts: seq<int>, rate: Rate, start: int): set<nat>
  {
    set i: nat | 0 <= i < |ts| && start <= ts[i] <= start + rate.period && Admitted(ts, rate, i)
  }

  /** The numbers lo to lo + n - 1. */
  ghost function Span(lo: nat, n: nat): (r: set<nat>)
    ensures forall i :: i in r <==> lo <= i < lo + n
    ensures |r| == n
  {
    if n == 0 then {} else Span(lo, n - 1) + {lo + n - 1}
  }

  lemma SubsetSize(a: set<nat>, b: set<nat>)
    requires a <= b
    ensures |a| <= |b|
  {
    assert b == a + (b - a);
  }

  /** Any interval as long as the period touches at most two windows, so it admits at most twice the limit. */
  lemma AtMostTwiceTheLimit(ts: seq<int>, rate: Rate, start: int)
    requires Ordered(ts) && rate.period > 0
    ensures |AdmittedFrom(ts, rate, start)| <= 2 * Allowance(rate)
  {
    var admitted := AdmittedFrom(ts, rate, start);
    var f := Least(admitted, 0, |ts|);
    if admitted != {} {
      var second := SecondOpener(ts, rate, start, f);
      TwoWindows(ts, rate, start, Opener(ts, rate.period, f), second);
    }
  }

  lemma TwoWindows(ts: seq<int>, rate: Rate, start: int, first: nat, second: nat)
    requires forall i :: i in AdmittedFrom(ts, rate, start) ==>
               Opener(ts, rate.period, i) == first || Opener(ts, rate.period, i) == second
    ensures |AdmittedFrom(ts, rate, start)| <= 2 * Allowance(rate)
  {
    var both := Span(first, Allowance(rate)) + Span(second, Allowance(rate));
    forall i | i in AdmittedFrom(ts, rate, start) ensures i in both {
      FirstOfEachWindowAreAdmitted(ts, rate, i);
    }
    SubsetSize(AdmittedFrom(ts, rate, start), both);
  }

  /** The one window besides the first that the admitted requests of the interval can belong to. */
  lemma SecondOpener(ts: seq<int>, rate: Rate, start: int, f: nat) returns (second: nat)
    requires Ordered(ts) && rate.period > 0 && f < |ts| && start <= ts[f]
    requires forall i :: i in AdmittedFrom(ts, rate, start) ==> f <= i
    ensures forall i :: i in AdmittedFrom(ts, rate, start) ==>
              Opener(ts, rate.period, i) == Opener(ts, rate.period, f) || Opener(ts, rate.period, i) == second
  {
    var admitted := AdmittedFrom(ts, rate, start);
    var first := Opener(ts, rate.period, f);
    if j :| j in admitted && Opener(ts, rate.period, j) != first {
      second := Opener(ts, rate.period, j);
      forall i | i in admitted && Opener(ts, rate.period, i) != first ensures Opener(ts, rate.period, i) == second {
        OpenerBetween(ts, rate.period, f, i);
        OpenerBetween(ts, rate.period, f, j);
        if i <= j {
          OpenerBetween(ts, rate.period, i, j);
        } else {
          OpenerBetween(ts, rate.period, j, i);
        }
        OpenedAfter(ts, rate, f, i);
        OpenedAfter(ts, rate, f, j);
      }
    } else {
      second := 0;
    }
  }

  /** A window opened after request f began strictly later than f came. */
  lemma OpenedAfter(ts: seq<int>, rate: Rate, f: nat, i: nat)
    requires Ordered(ts) && rate.period > 0 && f <= i < |ts|
    requires Opener(ts, rate.period, i) != Opener(ts, rate.period, f)
    ensures ts[Opener(ts, rate.period, i)] > ts[f]
  {
    OpenerBetween(ts, rate.period, f, i);
    InOwnWindow(ts, rate.period, f);
  }

  lemma {:induction false} InOwnWindow(ts: seq<int>, period: nat, i: nat)
    requires i < |ts| && period > 0
    ensures ts[i] < ts[Opener(ts, period, i)] + period
  {
  }

  /** The least element of a set of numbers from lo to hi - 1, unless it is empty. */
  lemma {:induction false} Least(s: set<nat>, lo: nat, hi: nat) returns (f: nat)
    requires lo <= hi && forall i :: i in s ==> lo <= i < hi
    ensures s == {} || (f in s && forall i :: i in s ==> f <= i)
    decreases hi - lo
  {
    f := lo;
    if lo == hi {
      assert s == {};
    } else if lo !in s {
      f := Least(s, lo + 1, hi);
    }
  }

  /** The bound is reached: one request at each end of an interval, with a limit of one. */
  lemma TwiceTheLimitIsReached()
    ensures |AdmittedFrom([0, 60], Rate(1, 60), 0)| == 2
  {
    var ts, rate := [0, 60], Rate(1, 60);
    assert After(ts, 0, 60) == None;
    assert After(ts, 1, 60) == Some(Bucket(1, 60));
    assert Admitted(ts, rate, 0) && Admitted(ts, rate, 1);
    assert AdmittedFrom(ts, rate, 0) == {0, 1};
  }
}
