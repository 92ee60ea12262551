/** The sliding-window rate limiter: a queue of recent admissions and its sum. */
module Limiter {
  import opened Spans

  /** The clock in nanoseconds; one second. */
  const WINDOW: nat := 1_000_000_000
  const MAX_SLEEP: nat := 200_000_000
  const MIN_SLEEP: nat := 5_000_000

  datatype Entry = Entry(time: nat, bytes: nat)

  function Sum(q: seq<Entry>): nat { if q == [] then 0 else q[0].bytes + Sum(q[1..]) }

  /** Bytes admitted at times in `[from, to)`. */
  function Admitted(log: seq<Entry>, from: nat, to: nat): nat {
    if log == [] then 0 else (if from <= log[0].time < to then log[0].bytes else 0) + Admitted(log[1..], from, to)
  }

  /** Bytes admitted less than a second before `now`. */
  function Recent(log: seq<Entry>, now: nat): nat { Admitted(log, SatSub(now + 1, WINDOW), now + 1) }

  predicate Stale(e: Entry, now: nat) { SatSub(now, e.time) >= WINDOW }

  /** How many entries at the front have left the window. */
  function Gone(q: seq<Entry>, now: nat): (n: nat)
    ensures n <= |q| && forall i :: 0 <= i < n ==> Stale(q[i], now)
  {
    if q != [] && Stale(q[0], now) then 1 + Gone(q[1..], now) else 0
  }

  /** The limiter; `past` remembers what has been dropped, which the code does not. */
  datatype State = State(rate: nat, queue: seq<Entry>, total: nat, past: seq<Entry>) {
    /** Everything ever admitted. */
    function Log(): seq<Entry> { past + queue }

    /** Drop what has left the window. */
    function Expired(now: nat): State {
      var n := Gone(queue, now);
      State(rate, queue[n..], Sum(queue[n..]), past + queue[..n])
    }

    /** `take` bytes are admitted now, unless that would be above the rate. */
    function Admit(now: nat, take: nat): State {
      if total + take <= rate then this.(queue := queue + [Entry(now, take)], total := total + take) else this
    }

    /** One turn of an acquirer that still wants `want` bytes. */
    function Turn(now: nat, want: nat): State { Expired(now).Admit(now, Min(want, rate)) }

    /** What it still wants afterwards. */
    function Left(now: nat, want: nat): nat {
      if Expired(now).total + Min(want, rate) <= rate then want - Min(want, rate) else want
    }
  }

  lemma {:induction false} SumConcat(p: seq<Entry>, q: seq<Entry>)
    ensures Sum(p + q) == Sum(p) + Sum(q)
  {
    if p == [] {
      assert p + q == q;
    } else {
      assert (p + q)[1..] == p[1..] + q;
      SumConcat(p[1..], q);
    }
  }

  lemma {:induction false} AdmittedConcat(p: seq<Entry>, q: seq<Entry>, from: nat, to: nat)
    ensures Admitted(p + q, from, to) == Admitted(p, from, to) + Admitted(q, from, to)
  {
    if p == [] {
      assert p + q == q;
    } else {
      assert (p + q)[1..] == p[1..] + q;
      AdmittedConcat(p[1..], q, from, to);
    }
  }

  lemma {:induction false} AdmittedAtMost(q: seq<Entry>, from: nat, to: nat)
    ensures Admitted(q, from, to) <= Sum(q)
  {
    if q != [] { AdmittedAtMost(q[1..], from, to); }
  }

  lemma {:induction false} AdmittedNone(q: seq<Entry>, from: nat, to: nat, now: nat)
    requires (forall i :: 0 <= i < |q| ==> Stale(q[i], now)) && now < from + WINDOW
    ensures Admitted(q, from, to) == 0
  {
    if q != [] {
      assert Stale(q[0], now);
      forall i | 0 <= i < |q[1..]| ensures Stale(q[1..][i], now) { assert q[1..][i] == q[i + 1]; }
      AdmittedNone(q[1..], from, to, now);
    }
  }

  /** The second from `t` on saw no more than the rate. */
  predicate Within(log: seq<Entry>, t: nat, rate: nat) { Admitted(log, t, t + WINDOW) <= rate }

  /** Admissions queue in the order of the clock. */
  predicate Ordered(q: seq<Entry>, now: nat) {
    && (forall i, j :: 0 <= i < j < |q| ==> q[i].time <= q[j].time)
    && forall i :: 0 <= i < |q| ==> q[i].time <= now
  }

  /** The running sum is right and below the rate, what was dropped was stale, and
      no second ever saw more than the rate. */
  ghost predicate Inv(s: State, now: nat) {
    && s.total == Sum(s.queue) <= s.rate
    && Ordered(s.queue, now)
    && (forall i :: 0 <= i < |s.past| ==> Stale(s.past[i], now))
    && forall t: nat :: Within(s.Log(), t, s.rate)
  }

  lemma StillStale(e: Entry, before: nat, now: nat)
    requires Stale(e, before) && before <= now
    ensures Stale(e, now)
  {
  }

  lemma PastStale(past: seq<Entry>, dropped: seq<Entry>, before: nat, now: nat)
    requires before <= now
    requires forall i :: 0 <= i < |past| ==> Stale(past[i], before)
    requires forall i :: 0 <= i < |dropped| ==> Stale(dropped[i], now)
    ensures forall i :: 0 <= i < |past + dropped| ==> Stale((past + dropped)[i], now)
  {
    forall i | 0 <= i < |past + dropped| ensures Stale((past + dropped)[i], now) {
      if i < |past| { StillStale(past[i], before, now); } else { assert Stale(dropped[i - |past|], now); }
    }
  }

  /** Expiring keeps the log. */
  lemma ExpiredLog(s: State, now: nat)
    ensures s.Expired(now).Log() == s.Log()
  {
    var n := Gone(s.queue, now);
    assert s.queue == s.queue[..n] + s.queue[n..];
  }

  lemma ExpiredInv(s: State, before: nat, now: nat)
    requires Inv(s, before) && before <= now
    ensures Inv(s.Expired(now), now)
  {
    var n := Gone(s.queue, now);
    ExpiredLog(s, now);
    PastStale(s.past, s.queue[..n], before, now);
    assert s.queue[..n] + s.queue[n..] == s.queue;
    SumConcat(s.queue[..n], s.queue[n..]);
    forall t: nat ensures Within(s.Expired(now).Log(), t, s.rate) { assert Within(s.Log(), t, s.rate); }
  }

  /** A second that holds `now` counts nothing stale. */
  lemma PushedWithin(s: State, now: nat, take: nat, t: nat)
    requires Inv(s, now) && s.total + take <= s.rate
    ensures Within(s.Log() + [Entry(now, take)], t, s.rate)
  {
    var e := [Entry(now, take)];
    assert e[1..] == [];
    AdmittedConcat(s.Log(), e, t, t + WINDOW);
    if t <= now < t + WINDOW {
      AdmittedConcat(s.past, s.queue, t, t + WINDOW);
      AdmittedNone(s.past, t, t + WINDOW, now);
      AdmittedAtMost(s.queue, t, t + WINDOW);
    } else {
      assert Within(s.Log(), t, s.rate);
    }
  }

  lemma TurnInv(s: State, before: nat, now: nat, want: nat)
    requires Inv(s, before) && before <= now
    ensures Inv(s.Turn(now, want), now)
  {
    ExpiredInv(s, before, now);
    var u, take := s.Expired(now), Min(want, s.rate);
    if u.total + take <= s.rate {
      var e := Entry(now, take);
      SumConcat(u.queue, [e]);
      assert [e][1..] == [];
      assert s.Turn(now, want).Log() == u.Log() + [e];
      forall t: nat ensures Within(u.Log() + [e], t, s.rate) { PushedWithin(u, now, take, t); }
    }
  }

  lemma {:induction false} AdmittedAll(q: seq<Entry>, from: nat, to: nat)
    requires forall i :: 0 <= i < |q| ==> from <= q[i].time < to
    ensures Admitted(q, from, to) == Sum(q)
  {
    if q != [] {
      forall i | 0 <= i < |q[1..]| ensures from <= q[1..][i].time < to { assert q[1..][i] == q[i + 1]; }
      AdmittedAll(q[1..], from, to);
    }
  }

  /** What is left after expiring is young: the entry at the front is, and the
      others came later. */
  lemma {:induction false} GoneStops(q: seq<Entry>, now: nat, i: nat)
    requires Ordered(q, now) && Gone(q, now) <= i < |q|
    ensures !Stale(q[i], now)
    decreases |q|
  {
    if Stale(q[0], now) {
      var rest := q[1..];
      forall a, b | 0 <= a < b < |rest| ensures rest[a].time <= rest[b].time {
        assert rest[a] == q[a + 1] && rest[b] == q[b + 1];
      }
      forall a | 0 <= a < |rest| ensures rest[a].time <= now { assert rest[a] == q[a + 1]; }
      GoneStops(rest, now, i - 1);
    } else if i > 0 {
      assert q[0].time <= q[i].time;
    }
  }

  /** The running sum after expiring is what the log holds of the last second. */
  lemma RecentIsTotal(s: State, before: nat, now: nat)
    requires Inv(s, before) && before <= now
    ensures s.Expired(now).total == Recent(s.Log(), now)
  {
    var u, from := s.Expired(now), SatSub(now + 1, WINDOW);
    ExpiredInv(s, before, now);
    ExpiredLog(s, now);
    AdmittedConcat(u.past, u.queue, from, now + 1);
    AdmittedNone(u.past, from, now + 1, now);
    var n := Gone(s.queue, now);
    forall i | 0 <= i < |u.queue| ensures from <= u.queue[i].time < now + 1 { GoneStops(s.queue, now, n + i); }
    AdmittedAll(u.queue, from, now + 1);
  }

  /** What a turn was granted goes into the log, stamped with its time. */
  function Logged(now: nat, granted: nat): seq<Entry> { if granted > 0 then [Entry(now, granted)] else [] }

  /** A turn is granted all it may ask for at once if the last second leaves room
      for that, and nothing if it does not; the log tells which. */
  lemma GrantExact(s: State, before: nat, now: nat, want: nat)
    requires Inv(s, before) && before <= now && want > 0 && s.rate > 0
    ensures var left := s.Left(now, want);
            && (left < want <==> Recent(s.Log(), now) + Min(want, s.rate) <= s.rate)
            && (left < want ==> want - left == Min(want, s.rate))
            && left <= want
            && s.Turn(now, want).Log() == s.Log() + Logged(now, want - left)
  {
    RecentIsTotal(s, before, now);
    ExpiredLog(s, now);
    var u, take := s.Expired(now), Min(want, s.rate);
    if u.total + take <= s.rate {
      assert s.Turn(now, want).Log() == u.Log() + [Entry(now, take)];
    } else {
      assert s.Log() + [] == s.Log();
    }
  }

  /** Turns of any acquirers, in the order they get the lock. */
  function Turns(s: State, turns: seq<(nat, nat)>): State
    decreases |turns|
  {
    if turns == [] then s else Turns(s.Turn(turns[0].0, turns[0].1), turns[1..])
  }

  predicate Monotone(turns: seq<(nat, nat)>, from: nat)
    decreases |turns|
  {
    turns == [] || (from <= turns[0].0 && Monotone(turns[1..], turns[0].0))
  }

  lemma {:induction false} TurnsInv(s: State, now: nat, turns: seq<(nat, nat)>) returns (end: nat)
    requires Inv(s, now) && Monotone(turns, now)
    ensures Inv(Turns(s, turns), end) && Turns(s, turns).rate == s.rate
    decreases |turns|
  {
    if turns == [] {
      end := now;
    } else {
      TurnInv(s, now, turns[0].0, turns[0].1);
      end := TurnsInv(s.Turn(turns[0].0, turns[0].1), turns[0].0, turns[1..]);
    }
  }

  function Start(rate: nat): State { State(rate, [], 0, []) }

  /** Whatever the acquirers and the clock do, no half-open second admits more
      than the rate, and the running sum is the sum of the queue. */
  lemma WindowLaw(rate: nat, turns: seq<(nat, nat)>)
    requires Monotone(turns, 0)
    ensures var s := Turns(Start(rate), turns); s.total == Sum(s.queue) && forall t: nat :: Within(s.Log(), t, rate)
  {
    forall t: nat ensures Within(Start(rate).Log(), t, rate) { assert Start(rate).Log() == []; }
    var end := TurnsInv(Start(rate), 0, turns);
  }

  /** What each turn was granted, and when: what it wanted less what it was left with. */
  function Grants(s: State, turns: seq<(nat, nat)>): seq<Entry>
    decreases |turns|
  {
    if turns == [] then []
    else
      var (now, want) := turns[0];
      [Entry(now, SatSub(want, s.Left(now, want)))] + Grants(s.Turn(now, want), turns[1..])
  }

  /** The log gains the bytes granted, none more and none less, in every stretch of time. */
  lemma {:induction false} GrantsLogged(s: State, before: nat, turns: seq<(nat, nat)>, from: nat, to: nat)
    requires Inv(s, before) && Monotone(turns, before) && s.rate > 0
    requires forall i :: 0 <= i < |turns| ==> turns[i].1 > 0
    ensures Admitted(Turns(s, turns).Log(), from, to) == Admitted(s.Log(), from, to) + Admitted(Grants(s, turns), from, to)
    decreases |turns|
  {
    if turns != [] {
      var (now, want) := turns[0];
      var g := want - s.Left(now, want);
      GrantExact(s, before, now, want);
      TurnInv(s, before, now, want);
      GrantsLogged(s.Turn(now, want), now, turns[1..], from, to);
      AdmittedConcat(s.Log(), Logged(now, g), from, to);
      AdmittedConcat([Entry(now, g)], Grants(s.Turn(now, want), turns[1..]), from, to);
      assert Logged(now, g)[if g > 0 then 1 else 0..] == [] && [Entry(now, g)][1..] == [];
    }
  }

  /** Whatever the acquirers and the clock do, no half-open second grants more than the rate. */
  lemma GrantsWithin(rate: nat, turns: seq<(nat, nat)>, t: nat)
    requires Monotone(turns, 0) && rate > 0 && forall i :: 0 <= i < |turns| ==> turns[i].1 > 0
    ensures Admitted(Grants(Start(rate), turns), t, t + WINDOW) <= rate
  {
    WindowLaw(rate, turns);
    forall u: nat ensures Within(Start(rate).Log(), u, rate) { assert Start(rate).Log() == []; }
    GrantsLogged(Start(rate), 0, turns, t, t + WINDOW);
    assert Within(Turns(Start(rate), turns).Log(), t, rate);
  }

  lemma {:induction false} AdmittedSplit(log: seq<Entry>, from: nat, mid: nat, to: nat)
    requires from <= mid <= to
    ensures Admitted(log, from, to) == Admitted(log, from, mid) + Admitted(log, mid, to)
  {
    if log != [] { AdmittedSplit(log[1..], from, mid, to); }
  }

  /** Whatever the acquirers and the clock do, a second that includes both its ends
      admits at most the rate and what its last instant admitted, which is again at
      most the rate. */
  lemma ClosedWindow(rate: nat, turns: seq<(nat, nat)>, t: nat)
    requires Monotone(turns, 0)
    ensures var log, last := Turns(Start(rate), turns).Log(), t + WINDOW;
            Admitted(log, t, last + 1) <= rate + Admitted(log, last, last + 1) <= 2 * rate
  {
    var log, last := Turns(Start(rate), turns).Log(), t + WINDOW;
    WindowLaw(rate, turns);
    assert Within(log, t, rate) && Within(log, last, rate);
    AdmittedSplit(log, t, last, last + 1);
    AdmittedSplit(log, last, last + 1, last + WINDOW);
  }

  /** And twice the rate is reached. */
  lemma ClosedWindowDoubles(rate: nat)
    ensures var s := Turns(Start(rate), [(0, rate), (WINDOW, rate)]); Admitted(s.Log(), 0, WINDOW + 1) == 2 * rate
  {
    var a, b := Entry(0, rate), Entry(WINDOW, rate);
    FirstTurn(rate);
    SecondTurn(rate);
    var turns: seq<(nat, nat)> := [(0, rate), (WINDOW, rate)];
    assert turns[1..] == [(WINDOW, rate)];
    var s2 := State(rate, [b], rate, [a]);
    assert Turns(Start(rate), turns) == Turns(State(rate, [a], rate, []), turns[1..]) == s2;
    assert s2.Log() == [a, b] && [a, b][1..] == [b];
    assert Admitted([b], 0, WINDOW + 1) == rate;
  }

  lemma FirstTurn(rate: nat)
    ensures Start(rate).Turn(0, rate) == State(rate, [Entry(0, rate)], rate, [])
  {
    assert Start(rate).Expired(0) == Start(rate);
    assert [] + [Entry(0, rate)] == [Entry(0, rate)];
  }

  lemma SecondTurn(rate: nat)
    ensures State(rate, [Entry(0, rate)], rate, []).Turn(WINDOW, rate) == State(rate, [Entry(WINDOW, rate)], rate, [Entry(0, rate)])
  {
    var a, b := Entry(0, rate), Entry(WINDOW, rate);
    assert [a][1..] == [] && Gone([a], WINDOW) == 1 + Gone([], WINDOW) == 1;
    assert [a][..1] == [a] && [] + [a] == [a] && [] + [b] == [b];
    assert State(rate, [a], rate, []).Expired(WINDOW) == State(rate, [], 0, [a]);
  }

  lemma {:induction false} AllGone(q: seq<Entry>, now: nat)
    requires forall i :: 0 <= i < |q| ==> Stale(q[i], now)
    ensures Gone(q, now) == |q|
  {
    if q != [] {
      forall i | 0 <= i < |q[1..]| ensures Stale(q[1..][i], now) { assert q[1..][i] == q[i + 1]; }
      AllGone(q[1..], now);
    }
  }

  /** A second after the last admission nobody has to wait. */
  lemma PatienceAdmits(s: State, now: nat, want: nat)
    requires forall i :: 0 <= i < |s.queue| ==> Stale(s.queue[i], now)
    ensures s.Turn(now, want).Log() == s.Log() + [Entry(now, Min(want, s.rate))]
  {
    AllGone(s.queue, now);
    assert s.queue[..|s.queue|] == s.queue && s.queue[|s.queue|..] == [];
    assert s.Expired(now).Log() + [Entry(now, Min(want, s.rate))] == s.Log() + [Entry(now, Min(want, s.rate))];
  }

  /** How long to sleep when the oldest admission is `age` old. */
  function Nap(age: nat): (sleep: nat)
    ensures MIN_SLEEP <= sleep <= MAX_SLEEP
  {
    Max(Min(SatSub(WINDOW, age), MAX_SLEEP), MIN_SLEEP)
  }

  class Sliding {
    const rate: nat
    var window: seq<Entry>
    var windowBytes: nat
    ghost var past: seq<Entry>
    ghost var clock: nat

    ghost function View(): State
      reads this
    {
      State(rate, window, windowBytes, past)
    }

    /** What the passes up to `clock` keep. */
    ghost predicate Valid()
      reads this
    {
      Inv(View(), clock)
    }

    constructor (rate: nat)
      ensures Valid() && View() == Start(rate) && clock == 0
    {
      this.rate := rate;
      window, windowBytes, past, clock := [], 0, [], 0;
    }

    method Expire(now: nat)
      requires windowBytes == Sum(window)
      modifies this
      ensures View() == old(View()).Expired(now) && clock == old(clock)
    {
      ghost var goal := View().Expired(now);
      while |window| > 0 && SatSub(now, window[0].time) >= WINDOW
        invariant windowBytes == Sum(window) && View().Expired(now) == goal && clock == old(clock)
        decreases |window|
      {
        ExpireStep(View(), now);
        windowBytes, past := SatSub(windowBytes, window[0].bytes), past + [window[0]];
        window := window[1..];
      }
      assert window[0..] == window && past + window[..0] == past;
    }

    /** One pass of the acquire loop under the lock: how much is still wanted, and
        how long to sleep before the next pass. What is granted is logged, and it is
        granted exactly when the last second leaves room for it. A refused acquirer
        sleeps until the oldest admission leaves the window, within limits. */
    method Pass(now: nat, remaining: nat) returns (left: nat, sleep: nat)
      requires Valid() && clock <= now && remaining > 0 && rate > 0
      modifies this
      ensures Valid() && clock == now
      ensures View() == old(View()).Turn(now, remaining) && left == old(View()).Left(now, remaining)
      ensures left <= remaining
      ensures View().Log() == old(View()).Log() + if left < remaining then [Entry(now, remaining - left)] else []
      ensures left < remaining <==> Recent(old(View()).Log(), now) + Min(remaining, rate) <= rate
      ensures left < remaining ==> remaining - left == Min(remaining, rate) && sleep == 0
      ensures left == remaining ==> MIN_SLEEP <= sleep <= MAX_SLEEP && window != []
      ensures left == remaining ==> now + sleep >= window[0].time + WINDOW || sleep == MAX_SLEEP
      ensures left == remaining ==> now + sleep <= window[0].time + WINDOW || sleep == MIN_SLEEP
    {
      ghost var was := View();
      ghost var before := clock;
      var take := Min(remaining, rate);
      GrantExact(was, before, now, remaining);
      TurnInv(was, before, now, remaining);
      ExpiredInv(was, before, now);
      Expire(now);
      clock := now;
      ghost var s := was.Expired(now);
      assert View() == s && was.Turn(now, remaining) == s.Admit(now, take);
      if windowBytes + take <= rate {
        window, windowBytes := window + [Entry(now, take)], windowBytes + take;
        assert View() == s.Admit(now, take);
        left, sleep := remaining - take, 0;
      } else {
        var age := if |window| > 0 then SatSub(now, window[0].time) else WINDOW;
        left, sleep := remaining, Nap(age);
      }
    }
  }

  lemma ExpireStep(s: State, now: nat)
    requires s.queue != [] && Stale(s.queue[0], now)
    ensures s.Expired(now) == State(s.rate, s.queue[1..], Sum(s.queue[1..]), s.past + [s.queue[0]]).Expired(now)
  {
    var q, n := s.queue[1..], Gone(s.queue[1..], now);
    assert s.queue[1 + n..] == q[n..];
    assert s.queue[..1 + n] == [s.queue[0]] + q[..n];
    assert s.past + s.queue[..1 + n] == (s.past + [s.queue[0]]) + q[..n];
  }
}
