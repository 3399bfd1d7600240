/** The connection manager of sirc/irc.go: one connection's bookkeeping
    (login flag, retry counter, keepalive counter, flood-control budget), the
    reconnect loop, the read pump's handling of one event, and the routing of
    replies. Sockets, goroutines and the write pump are not modelled: each
    method returns the messages it puts on the write channel, in order. */
module Sirc {
  import opened Wire
  import opened Conn

  class IConn {
    const nick: string
    const password: string
    /** Whether a callback was installed; `Init` always installs one. */
    const hasCallback: bool

    var Loggedin: bool
    var tries: nat
    var pendingPings: nat
    var badness: int
    var lastsent: int

    /** At most one keepalive PING is outstanding, the badness is never
        negative and the retry counter never passes the clamp plus one. */
    ghost predicate Valid()
      reads this
    {
      pendingPings <= 1 && badness >= 0 && tries <= TriesClamp + 1
    }

    /** The zero state of a fresh `IConn`, before its first `Reconnect`. */
    constructor (nick: string, password: string, hasCallback: bool)
      ensures Valid()
      ensures this.nick == nick && this.password == password && this.hasCallback == hasCallback
      ensures !Loggedin && tries == 0 && pendingPings == 0 && badness == 0 && lastsent == 0
    {
      this.nick := nick;
      this.password := password;
      this.hasCallback := hasCallback;
      Loggedin := false;
      tries := 0;
      pendingPings := 0;
      badness := 0;
      lastsent := 0;
    }

    /** `rateLimit` over the line length `chars` at time `now`. */
    method RateLimit(chars: nat, now: int) returns (wait: int)
      requires Valid()
      modifies this`badness, this`lastsent
      ensures Valid()
      ensures Charged(Budget(badness, lastsent), wait) == Charge(Budget(old(badness), old(lastsent)), chars, now)
    {
      var linetime := LineTime(chars);
      var elapsed := now - lastsent;
      badness := badness + linetime - elapsed;
      if badness < 0 {
        badness := 0;
      }
      lastsent := now;
      if badness > FloodLimit {
        return linetime;
      }
      return 0;
    }

    /** `Write`: charge the message's length to the flood budget; the caller
        waits `wait` before the message goes on the write channel. */
    method Write(m: Message, now: int) returns (wait: int)
      requires Valid()
      modifies this`badness, this`lastsent
      ensures Valid()
      ensures Charged(Budget(badness, lastsent), wait) == Charge(Budget(old(badness), old(lastsent)), WireLen(m), now)
    {
      wait := RateLimit(WireLen(m), now);
    }

    /** The flood-control budget as it stands. */
    function Flood(): (b: Budget)
      reads this
      ensures b.badness == badness && b.lastsent == lastsent
    {
      Budget(badness, lastsent)
    }

    /** `Write` of each of `ms` in turn at the instant `now`: the budget
        ends as charging all of them leaves it, and `waits` lists the wait
        each one asks for. */
    method WriteAll(ms: seq<Message>, now: int) returns (waits: seq<int>)
      requires Valid()
      modifies this`badness, this`lastsent
      ensures Valid()
      ensures Charges(Flood(), waits) == ChargeLines(old(Flood()), ms, now)
    {
      ghost var b0 := Flood();
      waits := [];
      for k := 0 to |ms|
        invariant Valid()
        invariant Charges(Flood(), waits) == ChargeLines(b0, ms[..k], now)
      {
        ghost var before := Flood();
        var w := Write(ms[k], now);
        ChargeLinesJoin(b0, ms[..k], [ms[k]], now);
        assert ms[..k + 1] == ms[..k] + [ms[k]];
        assert ChargeLines(before, [ms[k]], now) == Charges(Flood(), [w]);
        waits := waits + [w];
      }
      assert ms[..|ms|] == ms;
    }

    /** `addDelay`: count one more failure, clamped before the increment. */
    method AddDelay()
      modifies this`tries
      ensures tries == Conn.AddDelay(old(tries))
    {
      if tries > TriesClamp {
        tries := TriesClamp;
      }
      tries := tries + 1;
    }

    /** One pass of `Reconnect`: sleep `Backoff(tries)` when this is a retry,
        then dial. A successful dial resets the login flag, the keepalive
        counter and the badness and queues the registration; a failed one
        counts a failure. */
    method Attempt(dialed: bool) returns (sleep: int, out: seq<Message>)
      requires Valid()
      modifies this`Loggedin, this`tries, this`pendingPings, this`badness
      ensures Valid()
      ensures sleep == Backoff(old(tries))
      ensures dialed ==> tries == old(tries) && !Loggedin && pendingPings == 0 && badness == 0
                         && out == Registration(nick, password)
      ensures !dialed ==> tries == Conn.AddDelay(old(tries)) && Loggedin == old(Loggedin)
                          && pendingPings == old(pendingPings) && badness == old(badness) && out == []
    {
      sleep := 0;
      if tries > 0 {
        sleep := Pow2(tries) * 300 * Millisecond;
      }
      out := [];
      if dialed {
        Loggedin := false;
        pendingPings := 0;
        badness := 0;
        out := Registration(nick, password);
      } else {
        AddDelay();
      }
    }

    /** `Reconnect`, with the outcome of each dial attempt given in `dials`:
        it retries after every failed dial and stops at the first successful
        one. `sleeps` lists the sleep before each attempt made. */
    method Reconnect(dials: seq<bool>) returns (sleeps: seq<int>, connected: bool, out: seq<Message>)
      requires Valid()
      modifies this`Loggedin, this`tries, this`pendingPings, this`badness
      ensures Valid()
      ensures |sleeps| <= |dials|
      ensures connected ==> 0 < |sleeps| && dials[|sleeps| - 1]
      ensures forall i :: 0 <= i < |sleeps| - 1 ==> !dials[i]
      ensures !connected ==> |sleeps| == |dials| && forall i :: 0 <= i < |dials| ==> !dials[i]
      ensures sleeps == Backoffs(old(tries), |sleeps|)
      ensures forall i :: 0 <= i < |sleeps| ==> sleeps[i] <= 614_400 * Millisecond
      ensures connected ==> tries == Failures(old(tries), |sleeps| - 1)
      ensures !connected ==> tries == Failures(old(tries), |sleeps|)
      ensures connected ==> !Loggedin && pendingPings == 0 && badness == 0 && out == Registration(nick, password)
      ensures !connected ==> Loggedin == old(Loggedin) && pendingPings == old(pendingPings)
                             && badness == old(badness) && out == []
    {
      ghost var tries0 := tries;
      sleeps, connected, out := [], false, [];
      while |sleeps| < |dials|
        invariant Valid()
        invariant |sleeps| <= |dials|
        invariant forall i :: 0 <= i < |sleeps| ==> !dials[i]
        invariant sleeps == Backoffs(tries0, |sleeps|)
        invariant tries == Failures(tries0, |sleeps|)
        invariant Loggedin == old(Loggedin) && pendingPings == old(pendingPings) && badness == old(badness)
      {
        var k := |sleeps|;
        var sleep, msgs := Attempt(dials[k]);
        sleeps := sleeps + [sleep];
        if dials[k] {
          connected, out := true, msgs;
          BackoffsBounded(tries0, |sleeps|);
          return;
        }
      }
      BackoffsBounded(tries0, |sleeps|);
    }

    /** The read deadline set before the next `Decode`. */
    function Deadline(): (d: int)
      reads this
      requires Valid()
      ensures d == PingDeadline <==> pendingPings == 1
      ensures d == IdleDeadline <==> pendingPings == 0
    {
      ReadDeadline(pendingPings)
    }

    /** One turn of the read loop. A line clears a pending PING; PING is
        answered with PONG, a nick collision with a new nick, the welcome
        logs in and resets the retry counter, and every command but PING and
        the collision reaches the callback. A timeout with no PING out sends
        one; another timeout or any other error counts a failure and asks for
        a reconnect. `digit` is the random digit of the nick retry. */
    method Step(ev: ReadEvent, digit: nat) returns (out: seq<Message>, forwarded: bool, reconnect: bool)
      requires Valid() && digit < 10
      modifies this`Loggedin, this`tries, this`pendingPings
      ensures Valid()
      ensures pendingPings == Keepalive(old(pendingPings), ev).pending
      ensures reconnect == Keepalive(old(pendingPings), ev).fail
      ensures reconnect ==> tries == Conn.AddDelay(old(tries)) && out == [] && !forwarded && Loggedin == old(Loggedin)
      ensures ev.Timeout? && !reconnect ==> out == [KeepalivePing] && !forwarded
                                            && tries == old(tries) && Loggedin == old(Loggedin)
      ensures ev.Line? ==> out == Reply(nick, ev.m, digit)
      ensures ev.Line? ==> forwarded == (hasCallback && Forwarded(ev.m.command))
      ensures ev.Line? && ev.m.command == RPL_WELCOME ==> Loggedin && tries == 0
      ensures ev.Line? && ev.m.command != RPL_WELCOME ==> Loggedin == old(Loggedin) && tries == old(tries)
    {
      out, forwarded, reconnect := [], false, false;
      match ev {
        case Line(m) =>
          if pendingPings > 0 {
            pendingPings := pendingPings - 1;
          }
          if m.command == PING {
            out := [Pong(m)];
          } else if m.command == ERR_NICKNAMEINUSE {
            out := [NickRetry(nick, digit)];
          } else {
            if m.command == RPL_WELCOME {
              Loggedin := true;
              tries := 0;
            }
            forwarded := hasCallback;
          }
        case Timeout =>
          if pendingPings < 1 {
            pendingPings := pendingPings + 1;
            out := [KeepalivePing];
          } else {
            AddDelay();
            reconnect := true;
          }
        case ReadError =>
          AddDelay();
          reconnect := true;
      }
    }
  }

  /** The reply the read pump itself queues for an inbound line. */
  function Reply(nick: string, m: Message, digit: nat): (out: seq<Message>)
    requires digit < 10
  {
    if m.command == PING then [Pong(m)]
    else if m.command == ERR_NICKNAMEINUSE then [NickRetry(nick, digit)]
    else []
  }

  /** Commands the read pump hands to the callback: all but PING and the
      nick collision, the welcome included. */
  predicate Forwarded(command: string)
  {
    command != PING && command != ERR_NICKNAMEINUSE
  }

  /** A PING gets exactly one reply, a PONG with the same parameters and
      text; a collision gets exactly one NICK; anything else gets no reply
      from the read pump and goes to the callback. */
  lemma ReplyMeaning(nick: string, m: Message, digit: nat)
    requires digit < 10
    ensures m.command == PING ==>
              |Reply(nick, m, digit)| == 1 && Reply(nick, m, digit)[0].command == PONG
              && Reply(nick, m, digit)[0].params == m.params && Reply(nick, m, digit)[0].trailing == m.trailing
    ensures m.command == ERR_NICKNAMEINUSE ==>
              |Reply(nick, m, digit)| == 1
              && Reply(nick, m, digit)[0].command == NICK && Reply(nick, m, digit)[0].params[0] != nick
    ensures Reply(nick, m, digit) == [] <==> Forwarded(m.command)
  {
    if m.command == ERR_NICKNAMEINUSE {
      var r := NickRetry(nick, digit);
      assert |r.params[0]| != |nick|;
    }
  }

  /** Where a reply to `m` goes: nowhere when it has no first parameter, the
      channel when that parameter starts with '#', else the sender. */
  function Target(m: Message): (t: string)
    ensures |m.params| == 0 || m.params[0] == "" ==> t == ""
    ensures |m.params| > 0 && m.params[0] != "" && m.params[0][0] == '#' ==> t == m.params[0]
    ensures |m.params| > 0 && m.params[0] != "" && m.params[0][0] != '#' ==> t == m.prefix
  {
    if |m.params| == 0 || |m.params[0]| == 0 then ""
    else
      var target := m.params[0];
      if target[0] == '#' then target else m.prefix
  }

  /** The PRIVMSG `PrivMsg` passes to `Write`. */
  function PrivMsg(m: Message, args: seq<string>): (r: Message)
    ensures r.command == PRIVMSG && r.params == [Target(m)] && r.trailing == Concat(args)
  {
    Out(PRIVMSG, [Target(m)], Concat(args))
  }

  /** The NOTICE `Notice` passes to `Write`: always to the sender. */
  function Notice(m: Message, args: seq<string>): (r: Message)
    ensures r.command == NOTICE && r.params == [m.prefix] && r.trailing == Concat(args)
  {
    Out(NOTICE, [m.prefix], Concat(args))
  }

  /** A reply in a channel stays in that channel: answering the bot's own
      reply would go to the same place. A reply to a private line goes back
      to its sender, just where a NOTICE would go. */
  lemma TargetRouting(m: Message, args: seq<string>)
    ensures Target(m) != "" && Target(m)[0] == '#' ==> Target(PrivMsg(m, args)) == Target(m)
    ensures |m.params| > 0 && m.params[0] != "" && m.params[0][0] != '#' ==>
              PrivMsg(m, args).params == Notice(m, args).params
  {
  }
}
