/** Rules shared by both connection managers (sirc/irc.go and irc/irc.go):
    flood control, the retry counter and its backoff, and keepalive. Time is
    an integer number of nanoseconds, as Go's `time.Duration` is. */
module Conn {
  import opened Wire

  const Millisecond: int := 1_000_000
  const Second: int := 1000 * Millisecond

  /** Above this much accumulated badness a line must wait ("Excess Flood"). */
  const FloodLimit: int := 10 * Second
  /** The retry counter is clamped to this before it is incremented. */
  const TriesClamp: nat := 10
  /** Read deadlines: normally, and while a keepalive PING is unanswered. */
  const IdleDeadline: int := 30 * Second
  const PingDeadline: int := 5 * Second

  // ---------------------------------------------------------------------------
  // Flood control (Hybrid's algorithm)

  /** Cost of one line: 2 s plus 1/120 s per character, in whole nanoseconds. */
  function LineTime(chars: nat): int
  {
    2 * Second + chars * Second / 120
  }

  /** The cost is 2 s plus the character share rounded down to a nanosecond:
      never less than 2 s, and 120 more characters cost exactly one second more. */
  lemma LineTimeRate(chars: nat)
    ensures LineTime(chars) >= 2 * Second
    ensures 120 * (LineTime(chars) - 2 * Second) <= chars * Second < 120 * (LineTime(chars) - 2 * Second + 1)
    ensures LineTime(chars + 120) == LineTime(chars) + Second
  {
    assert (chars + 120) * Second == chars * Second + 120 * Second;
  }

  datatype Budget = Budget(badness: int, lastsent: int)
  datatype Charged = Charged(budget: Budget, wait: int)

  /** `rateLimit`: add the line's cost less the time since the last line to
      the badness, floor it at zero, record `now` as the last send, and ask
      for a wait of the line's cost when the badness exceeds 10 s. */
  function Charge(b: Budget, chars: nat, now: int): Charged
  {
    var linetime := LineTime(chars);
    var sum := b.badness + linetime - (now - b.lastsent);
    var badness := if sum < 0 then 0 else sum;
    Charged(Budget(badness, now), if badness > FloodLimit then linetime else 0)
  }

  /** The new badness is the old one plus cost minus elapsed time, floored at
      zero; a wait is asked for exactly when it is above 10 s, and it is then
      the line's own cost. */
  lemma ChargeMeaning(b: Budget, chars: nat, now: int)
    ensures Charge(b, chars, now).budget.badness >= 0
    ensures Charge(b, chars, now).budget.badness >= b.badness + LineTime(chars) - (now - b.lastsent)
    ensures Charge(b, chars, now).budget.badness > 0 ==>
              Charge(b, chars, now).budget.badness == b.badness + LineTime(chars) - (now - b.lastsent)
    ensures Charge(b, chars, now).budget.lastsent == now
    ensures Charge(b, chars, now).wait != 0 <==> Charge(b, chars, now).budget.badness > FloodLimit
    ensures Charge(b, chars, now).wait != 0 ==> Charge(b, chars, now).wait == LineTime(chars)
  {
  }

  /** A quiet period at least as long as the badness plus the line's cost
      wipes the slate: the badness is zero and nothing waits. */
  lemma QuietPeriodForgives(b: Budget, chars: nat, now: int)
    requires now - b.lastsent >= b.badness + LineTime(chars)
    ensures Charge(b, chars, now).budget == Budget(0, now)
    ensures Charge(b, chars, now).wait == 0
  {
  }

  /** Sending one line per line-cost interval keeps the badness where it is. */
  lemma SteadyRate(b: Budget, chars: nat, now: int)
    requires b.badness >= 0
    requires now - b.lastsent == LineTime(chars)
    ensures Charge(b, chars, now).budget.badness == b.badness
  {
  }

  /** The budget after charging each of `msgs` in turn at the instant `now`,
      with the wait each one asks for. */
  datatype Charges = Charges(budget: Budget, waits: seq<int>)

  function ChargeLines(b: Budget, msgs: seq<Message>, now: int): (r: Charges)
    ensures |r.waits| == |msgs|
    decreases |msgs|
  {
    if msgs == [] then Charges(b, [])
    else
      var c := Charge(b, WireLen(msgs[0]), now);
      var rest := ChargeLines(c.budget, msgs[1..], now);
      Charges(rest.budget, [c.wait] + rest.waits)
  }

  /** Charging lines one by one keeps the badness non-negative, and each
      line waits either not at all or its own cost. */
  lemma {:induction false} ChargeLinesMeaning(b: Budget, msgs: seq<Message>, now: int)
    requires b.badness >= 0
    ensures ChargeLines(b, msgs, now).budget.badness >= 0
    ensures msgs != [] ==> ChargeLines(b, msgs, now).budget.lastsent == now
    ensures msgs == [] ==> ChargeLines(b, msgs, now).budget == b
    ensures forall i :: 0 <= i < |msgs| ==>
              ChargeLines(b, msgs, now).waits[i] == 0 || ChargeLines(b, msgs, now).waits[i] == LineTime(WireLen(msgs[i]))
    decreases |msgs|
  {
    if msgs != [] {
      var c := Charge(b, WireLen(msgs[0]), now);
      ChargeLinesMeaning(c.budget, msgs[1..], now);
      var r := ChargeLines(b, msgs, now);
      forall i | 0 < i < |msgs|
        ensures r.waits[i] == 0 || r.waits[i] == LineTime(WireLen(msgs[i]))
      {
        assert r.waits[i] == ChargeLines(c.budget, msgs[1..], now).waits[i - 1];
        assert msgs[1..][i - 1] == msgs[i];
      }
    }
  }

  /** Charging two runs of lines is charging them joined. */
  lemma {:induction false} ChargeLinesJoin(b: Budget, xs: seq<Message>, ys: seq<Message>, now: int)
    ensures ChargeLines(b, xs + ys, now).budget == ChargeLines(ChargeLines(b, xs, now).budget, ys, now).budget
    ensures ChargeLines(b, xs + ys, now).waits
            == ChargeLines(b, xs, now).waits + ChargeLines(ChargeLines(b, xs, now).budget, ys, now).waits
    decreases |xs|
  {
    if xs == [] {
      assert xs + ys == ys;
    } else {
      var c := Charge(b, WireLen(xs[0]), now);
      assert (xs + ys)[0] == xs[0];
      assert (xs + ys)[1..] == xs[1..] + ys;
      ChargeLinesJoin(c.budget, xs[1..], ys, now);
    }
  }

  /** The budget after `n` empty lines sent at the same instant `now`. */
  function Burst(b: Budget, n: nat, now: int): Budget
  {
    if n == 0 then b else Charge(Burst(b, n - 1, now), 0, now).budget
  }

  /** Back-to-back empty lines each add exactly 2 s of badness. */
  lemma {:induction false} BurstBadness(b: Budget, n: nat, now: int)
    requires b.badness >= 0 && b.lastsent == now
    ensures Burst(b, n, now) == Budget(b.badness + n * 2 * Second, now)
  {
    if n > 0 {
      BurstBadness(b, n - 1, now);
    }
  }

  /** From a clean budget, five back-to-back empty lines reach exactly 10 s
      and pass; the sixth line and every later one must wait its 2 s cost. */
  lemma FloodBurst(n: nat, now: int)
    ensures Burst(Budget(0, now), 5, now).badness == FloodLimit
    ensures Charge(Burst(Budget(0, now), n, now), 0, now).wait == if n >= 5 then 2 * Second else 0
  {
    BurstBadness(Budget(0, now), n, now);
    BurstBadness(Budget(0, now), 5, now);
  }

  // ---------------------------------------------------------------------------
  // Retry counter and backoff

  /** `addDelay`: clamp the counter to 10, then add one. */
  function AddDelay(tries: nat): nat
  {
    (if tries > TriesClamp then TriesClamp else tries) + 1
  }

  /** The counter after `n` consecutive failures starting from `tries`. */
  function Failures(tries: nat, n: nat): nat
  {
    if n == 0 then tries else AddDelay(Failures(tries, n - 1))
  }

  /** Each failure adds one up to 11 and then stays at 11: the clamp runs
      before the increment, so the counter goes one past the clamp. */
  lemma AddDelayClamp(tries: nat)
    ensures AddDelay(tries) <= TriesClamp + 1
    ensures tries <= TriesClamp ==> AddDelay(tries) == tries + 1
    ensures tries > TriesClamp ==> AddDelay(tries) == TriesClamp + 1
  {
  }

  /** From a fresh counter, `n` failures leave it at min(n, 11). */
  lemma {:induction false} FailureStreak(n: nat)
    ensures Failures(0, n) == if n <= TriesClamp + 1 then n else TriesClamp + 1
  {
    if n > 0 {
      FailureStreak(n - 1);
    }
  }

  function Pow2(n: nat): (p: nat)
    ensures p >= 1
  {
    if n == 0 then 1 else 2 * Pow2(n - 1)
  }

  /** The sleep before a dial: none on a first attempt, else 2^tries x 300 ms. */
  function Backoff(tries: nat): int
  {
    if tries > 0 then Pow2(tries) * 300 * Millisecond else 0
  }

  /** The sleeps before `n` attempts that start from the counter `tries`,
      every one but the last having failed. */
  function Backoffs(tries: nat, n: nat): (r: seq<int>)
    ensures |r| == n
  {
    if n == 0 then [] else Backoffs(tries, n - 1) + [Backoff(Failures(tries, n - 1))]
  }

  /** The `i`-th sleep is the backoff of the counter after `i` failures. */
  lemma {:induction false} BackoffsAt(tries: nat, n: nat, i: nat)
    requires i < n
    ensures Backoffs(tries, n)[i] == Backoff(Failures(tries, i))
  {
    if i < n - 1 {
      BackoffsAt(tries, n - 1, i);
    }
  }

  /** A counter the clamp has kept at 11 or below never sleeps more than
      614.4 s. */
  lemma BackoffBounded(tries: nat)
    requires tries <= TriesClamp + 1
    ensures Backoff(tries) <= 614_400 * Millisecond
  {
    Pow2Monotone(tries, 11);
    assert Pow2(11) == 2048 by {
      assert Pow2(3) == 8;
      assert Pow2(6) == 64;
      assert Pow2(9) == 512;
    }
  }

  /** So every sleep of a reconnect run from such a counter is at most
      614.4 s. */
  lemma {:induction false} BackoffsBounded(tries: nat, n: nat)
    requires tries <= TriesClamp + 1
    ensures forall i :: 0 <= i < n ==> Backoffs(tries, n)[i] <= 614_400 * Millisecond
  {
    if n > 0 {
      BackoffsBounded(tries, n - 1);
      FailuresBounded(tries, n - 1);
      BackoffBounded(Failures(tries, n - 1));
      assert forall i :: 0 <= i < n - 1 ==> Backoffs(tries, n)[i] == Backoffs(tries, n - 1)[i];
    }
  }

  lemma {:induction false} FailuresBounded(tries: nat, n: nat)
    requires tries <= TriesClamp + 1
    ensures Failures(tries, n) <= TriesClamp + 1
  {
    if n > 0 {
      FailuresBounded(tries, n - 1);
    }
  }

  lemma Pow2Monotone(a: nat, b: nat)
    requires a <= b
    ensures Pow2(a) <= Pow2(b)
  {
    if a < b {
      Pow2Monotone(a, b - 1);
    }
  }

  /** Only a counter of zero dials at once; each further failure doubles the
      sleep until the counter stops at 11, where the sleep is 614.4 s. */
  lemma BackoffGrowth(tries: nat)
    ensures Backoff(tries) == 0 <==> tries == 0
    ensures 0 < tries <= TriesClamp ==> Backoff(AddDelay(tries)) == 2 * Backoff(tries)
    ensures Backoff(AddDelay(tries)) <= 614_400 * Millisecond
  {
    var t := AddDelay(tries);
    Pow2Monotone(t, 11);
    assert Pow2(11) == 2048 by {
      assert Pow2(3) == 8;
      assert Pow2(6) == 64;
      assert Pow2(9) == 512;
    }
  }

  /** Eleven or more failures in a row reach the ceiling of 614.4 s. */
  lemma BackoffCeiling(n: nat)
    requires n > TriesClamp
    ensures Backoff(Failures(0, n)) == 614_400 * Millisecond
  {
    FailureStreak(n);
    assert Pow2(11) == 2048 by {
      assert Pow2(3) == 8;
      assert Pow2(6) == 64;
      assert Pow2(9) == 512;
    }
  }

  // ---------------------------------------------------------------------------
  // Keepalive

  /** What the read pump gets from one `Decode`: a line, a timeout, or any
      other error. */
  datatype ReadEvent = Line(m: Message) | Timeout | ReadError

  /** The keepalive counter afterwards, whether a PING goes out, and whether
      the connection is given up. */
  datatype KeepaliveStep = KeepaliveStep(pending: nat, ping: bool, fail: bool)

  function Keepalive(pending: nat, ev: ReadEvent): KeepaliveStep
  {
    match ev
    case Line(_) => KeepaliveStep(if pending > 0 then pending - 1 else pending, false, false)
    case Timeout =>
      if pending < 1 then KeepaliveStep(pending + 1, true, false)
      else KeepaliveStep(pending, false, true)
    case ReadError => KeepaliveStep(pending, false, true)
  }

  /** The read deadline set before each `Decode`. */
  function ReadDeadline(pending: nat): (d: int)
    ensures d == PingDeadline <==> pending > 0
    ensures d == IdleDeadline <==> pending == 0
  {
    if pending > 0 then PingDeadline else IdleDeadline
  }

  /** One step keeps at most one PING outstanding: any line clears it, a
      timeout with none outstanding sends one, and a timeout with one
      outstanding or any other error gives the connection up. */
  lemma KeepaliveStepMeaning(pending: nat, ev: ReadEvent)
    requires pending <= 1
    ensures Keepalive(pending, ev).pending <= 1
    ensures ev.Line? ==> Keepalive(pending, ev) == KeepaliveStep(0, false, false)
    ensures Keepalive(pending, ev).ping <==> ev.Timeout? && pending == 0
    ensures Keepalive(pending, ev).ping ==> Keepalive(pending, ev).pending == 1
    ensures Keepalive(pending, ev).fail <==> ev.ReadError? || (ev.Timeout? && pending == 1)
  {
  }

  /** The steps of a read pump fed `evs`, stopping at the first failure. */
  function Run(pending: nat, evs: seq<ReadEvent>): seq<KeepaliveStep>
    decreases |evs|
  {
    if evs == [] then []
    else
      var k := Keepalive(pending, evs[0]);
      if k.fail then [k] else [k] + Run(k.pending, evs[1..])
  }

  /** Over any run the counter never exceeds one, only the last step can fail,
      and a PING is only ever sent while none is outstanding. */
  lemma {:induction false} RunBounded(pending: nat, evs: seq<ReadEvent>)
    requires pending <= 1
    ensures |Run(pending, evs)| <= |evs|
    ensures forall i :: 0 <= i < |Run(pending, evs)| ==> Run(pending, evs)[i].pending <= 1
    ensures forall i :: 0 <= i < |Run(pending, evs)| - 1 ==> !Run(pending, evs)[i].fail
    ensures forall i :: 0 < i < |Run(pending, evs)| && Run(pending, evs)[i].ping ==> Run(pending, evs)[i - 1].pending == 0
    decreases |evs|
  {
    if evs != [] {
      var k := Keepalive(pending, evs[0]);
      if !k.fail {
        RunBounded(k.pending, evs[1..]);
        var rest := Run(k.pending, evs[1..]);
        assert Run(pending, evs) == [k] + rest;
        forall i | 0 < i < |Run(pending, evs)| && Run(pending, evs)[i].ping
          ensures Run(pending, evs)[i - 1].pending == 0
        {
          if i == 1 {
            assert rest[0] == Keepalive(k.pending, evs[1]);
          } else {
            assert Run(pending, evs)[i] == rest[i - 1];
          }
        }
      }
    }
  }

  /** A silent peer is given up after two timeouts: 30 s for the first read,
      then 5 s once the PING is out, 35 s after the last line at most. */
  lemma SilentPeerDetected(pending: nat)
    requires pending <= 1
    ensures pending == 0 ==> Run(pending, [Timeout, Timeout]) == [KeepaliveStep(1, true, false), KeepaliveStep(1, false, true)]
    ensures pending == 0 ==> ReadDeadline(0) + ReadDeadline(1) == 35 * Second
    ensures pending == 1 ==> Run(pending, [Timeout]) == [KeepaliveStep(1, false, true)]
  {
    assert [Timeout, Timeout][1..] == [Timeout];
  }

  // ---------------------------------------------------------------------------
  // Messages the connection itself sends

  /** The registration sent on every new connection: USER, NICK, and PASS
      when a password is configured. */
  function Registration(nick: string, password: string): (out: seq<Message>)
    ensures |out| == if password == "" then 2 else 3
    ensures out[0] == Out(USER, [nick, "0", "*"], "github.com/sztanpet/sd-bot")
    ensures out[1] == Out(NICK, [nick], "")
    ensures password != "" ==> out[2] == Out(PASS, [password], "")
  {
    [Out(USER, [nick, "0", "*"], "github.com/sztanpet/sd-bot"), Out(NICK, [nick], "")]
    + (if |password| > 0 then [Out(PASS, [password], "")] else [])
  }

  /** The answer to a server PING carries the same parameters and text. */
  function Pong(m: Message): (r: Message)
    ensures r.command == PONG && r.params == m.params && r.trailing == m.trailing && r.prefix == ""
  {
    Out(PONG, m.params, m.trailing)
  }

  /** The keepalive probe. */
  const KeepalivePing := Out(PING, ["sd-bot"], "")

  /** On a nick collision the configured nick plus one random digit. The
      code formats `nick + "%d"`, so a '%' in the nick would be read as a
      verb; a valid nick has none, and the nick is taken as plain text. */
  function NickRetry(nick: string, digit: nat): (r: Message)
    requires digit < 10
    ensures r.command == NICK && |r.params| == 1
    ensures |r.params[0]| == |nick| + 1 && r.params[0][..|nick|] == nick
    ensures '0' <= r.params[0][|nick|] <= '9'
  {
    Out(NICK, [nick + [DigitChar(digit)]], "")
  }
}
