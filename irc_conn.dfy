/** The older connection manager of irc/irc.go, used by the webhook side.
    It keeps the same bookkeeping as sirc/irc.go, but on the welcome reply it
    joins its one configured channel through the rate-limited `Write` and
    does not pass the welcome on; every other command except PING and the
    nick collision reaches the callback. */
module Irc {
  import opened Wire
  import opened Conn

  class IConn {
    const nick: string
    const password: string
    /** The configured channel, without its '#'. */
    const channel: string
    const hasCallback: bool

    var Loggedin: bool
    var tries: nat
    var pendingPings: nat
    var badness: int
    var lastsent: int

    /** As in sirc: at most one PING out, a non-negative badness and a
        retry counter at most one past the clamp. */
    ghost predicate Valid()
      reads this
    {
      pendingPings <= 1 && badness >= 0 && tries <= TriesClamp + 1
    }

    constructor (nick: string, password: string, channel: string, hasCallback: bool)
      ensures Valid()
      ensures this.nick == nick && this.password == password && this.channel == channel
      ensures this.hasCallback == hasCallback
      ensures !Loggedin && tries == 0 && pendingPings == 0 && badness == 0 && lastsent == 0
    {
      this.nick := nick;
      this.password := password;
      this.channel := channel;
      this.hasCallback := hasCallback;
      Loggedin := false;
      tries := 0;
      pendingPings := 0;
      badness := 0;
      lastsent := 0;
    }

    /** `rateLimit`, as in sirc/irc.go. */
    method RateLimit(chars: nat, now: int) returns (wait: int)
      requires Valid()
      modifies this`badness, this`lastsent
      ensures Valid()
      ensures Charged(Budget(badness, lastsent), wait) == Charge(Budget(old(badness), old(lastsent)), chars, now)
    {
      var linetime := LineTime(chars);
      var elapsed := now - lastsent;
      badness := badness + linetime - elapsed;
      if badness < 0 {
        badness := 0;
      }
      lastsent := now;
      if badness > FloodLimit {
        return linetime;
      }
      return 0;
    }

    method Write(m: Message, now: int) returns (wait: int)
      requires Valid()
      modifies this`badness, this`lastsent
      ensures Valid()
      ensures Charged(Budget(badness, lastsent), wait) == Charge(Budget(old(badness), old(lastsent)), WireLen(m), now)
    {
      wait := RateLimit(WireLen(m), now);
    }

    /** The flood-control budget as it stands. */
    function Flood(): (b: Budget)
      reads this
      ensures b.badness == badness && b.lastsent == lastsent
    {
      Budget(badness, lastsent)
    }

    /** `WriteLine`: a PRIVMSG of `line` to the configured channel, through
        `Write`. */
    method WriteLine(line: string, now: int) returns (wait: int, m: Message)
      requires Valid()
      modifies this`badness, this`lastsent
      ensures Valid()
      ensures m == ChannelLine(channel, line)
      ensures Charged(Budget(badness, lastsent), wait) == Charge(Budget(old(badness), old(lastsent)), WireLen(m), now)
    {
      m := Out(PRIVMSG, ["#" + channel], line);
      wait := Write(m, now);
    }

    /** `addDelay`, as in sirc/irc.go. */
    method AddDelay()
      modifies this`tries
      ensures tries == Conn.AddDelay(old(tries))
    {
      if tries > TriesClamp {
        tries := TriesClamp;
      }
      tries := tries + 1;
    }

    /** One pass of `Reconnect`: the backoff sleep when retrying, then the
        dial; see the sirc/irc.go model. */
    method Attempt(dialed: bool) returns (sleep: int, out: seq<Message>)
      requires Valid()
      modifies this`Loggedin, this`tries, this`pendingPings, this`badness
      ensures Valid()
      ensures sleep == Backoff(old(tries))
      ensures dialed ==> tries == old(tries) && !Loggedin && pendingPings == 0 && badness == 0
                         && out == Registration(nick, password)
      ensures !dialed ==> tries == Conn.AddDelay(old(tries)) && Loggedin == old(Loggedin)
                          && pendingPings == old(pendingPings) && badness == old(badness) && out == []
    {
      sleep := 0;
      if tries > 0 {
        sleep := Pow2(tries) * 300 * Millisecond;
      }
      out := [];
      if dialed {
        Loggedin := false;
        pendingPings := 0;
        badness := 0;
        out := Registration(nick, password);
      } else {
        AddDelay();
      }
    }

    /** `Reconnect`, with the outcome of each dial attempt given in `dials`. */
    method Reconnect(dials: seq<bool>) returns (sleeps: seq<int>, connected: bool, out: seq<Message>)
      requires Valid()
      modifies this`Loggedin, this`tries, this`pendingPings, this`badness
      ensures Valid()
      ensures |sleeps| <= |dials|
      ensures connected ==> 0 < |sleeps| && dials[|sleeps| - 1]
      ensures forall i :: 0 <= i < |sleeps| - 1 ==> !dials[i]
      ensures !connected ==> |sleeps| == |dials| && forall i :: 0 <= i < |dials| ==> !dials[i]
      ensures sleeps == Backoffs(old(tries), |sleeps|)
      ensures forall i :: 0 <= i < |sleeps| ==> sleeps[i] <= 614_400 * Millisecond
      ensures connected ==> tries == Failures(old(tries), |sleeps| - 1)
      ensures !connected ==> tries == Failures(old(tries), |sleeps|)
      ensures connected ==> !Loggedin && pendingPings == 0 && badness == 0 && out == Registration(nick, password)
      ensures !connected ==> Loggedin == old(Loggedin) && pendingPings == old(pendingPings)
                             && badness == old(badness) && out == []
    {
      ghost var tries0 := tries;
      sleeps, connected, out := [], false, [];
      while |sleeps| < |dials|
        invariant Valid()
        invariant |sleeps| <= |dials|
        invariant forall i :: 0 <= i < |sleeps| ==> !dials[i]
        invariant sleeps == Backoffs(tries0, |sleeps|)
        invariant tries == Failures(tries0, |sleeps|)
        invariant Loggedin == old(Loggedin) && pendingPings == old(pendingPings) && badness == old(badness)
      {
        var k := |sleeps|;
        var sleep, msgs := Attempt(dials[k]);
        sleeps := sleeps + [sleep];
        if dials[k] {
          connected, out := true, msgs;
          BackoffsBounded(tries0, |sleeps|);
          return;
        }
      }
      BackoffsBounded(tries0, |sleeps|);
    }

    function Deadline(): (d: int)
      reads this
      requires Valid()
      ensures d == PingDeadline <==> pendingPings == 1
      ensures d == IdleDeadline <==> pendingPings == 0
    {
      ReadDeadline(pendingPings)
    }

    /** One turn of the read loop at time `now`. PING and the nick collision
        are answered directly; the welcome logs in, resets the retry counter
        and joins the channel through `Write` (whose wait is `wait`); every
        other command reaches the callback. Timeouts and errors are handled as
        in sirc/irc.go. */
    method Step(ev: ReadEvent, digit: nat, now: int) returns (out: seq<Message>, wait: int, forwarded: bool, reconnect: bool)
      requires Valid() && digit < 10
      modifies this`Loggedin, this`tries, this`pendingPings, this`badness, this`lastsent
      ensures Valid()
      ensures pendingPings == Keepalive(old(pendingPings), ev).pending
      ensures reconnect == Keepalive(old(pendingPings), ev).fail
      ensures reconnect ==> tries == Conn.AddDelay(old(tries)) && out == [] && !forwarded && Loggedin == old(Loggedin)
      ensures ev.Timeout? && !reconnect ==> out == [KeepalivePing] && !forwarded
                                            && tries == old(tries) && Loggedin == old(Loggedin)
      ensures ev.Line? ==> out == Reply(nick, channel, ev.m, digit)
      ensures ev.Line? ==> forwarded == (hasCallback && Forwarded(ev.m.command))
      ensures ev.Line? && ev.m.command == RPL_WELCOME ==>
                Loggedin && tries == 0
                && Charged(Budget(badness, lastsent), wait) == Charge(Budget(old(badness), old(lastsent)), WireLen(out[0]), now)
      ensures !(ev.Line? && ev.m.command == RPL_WELCOME) ==>
                wait == 0 && badness == old(badness) && lastsent == old(lastsent)
      ensures ev.Line? && ev.m.command != RPL_WELCOME ==> Loggedin == old(Loggedin) && tries == old(tries)
    {
      out, wait, forwarded, reconnect := [], 0, false, false;
      match ev {
        case Line(m) =>
          if pendingPings > 0 {
            pendingPings := pendingPings - 1;
          }
          if m.command == PING {
            out := [Pong(m)];
          } else if m.command == RPL_WELCOME {
            Loggedin := true;
            tries := 0;
            var join := Out(JOIN, ["#" + channel], "");
            wait := Write(join, now);
            out := [join];
          } else if m.command == ERR_NICKNAMEINUSE {
            out := [NickRetry(nick, digit)];
          } else {
            forwarded := hasCallback;
          }
        case Timeout =>
          if pendingPings < 1 {
            pendingPings := pendingPings + 1;
            out := [KeepalivePing];
          } else {
            AddDelay();
            reconnect := true;
          }
        case ReadError =>
          AddDelay();
          reconnect := true;
      }
    }
  }

  /** The PRIVMSG `WriteLine` sends. */
  function ChannelLine(channel: string, line: string): (m: Message)
    ensures m.command == PRIVMSG && m.params == ["#" + channel] && m.trailing == line
  {
    Out(PRIVMSG, ["#" + channel], line)
  }

  /** The PRIVMSGs `WriteLine` sends for each of `texts`, in order. */
  function ChannelLines(channel: string, texts: seq<string>): (ms: seq<Message>)
    ensures |ms| == |texts|
    ensures forall i :: 0 <= i < |texts| ==> ms[i] == ChannelLine(channel, texts[i])
  {
    if texts == [] then [] else [ChannelLine(channel, texts[0])] + ChannelLines(channel, texts[1..])
  }

  /** What the read pump itself sends for an inbound line: PONG, the JOIN
      after the welcome, or the retry nick. */
  function Reply(nick: string, channel: string, m: Message, digit: nat): (out: seq<Message>)
    requires digit < 10
  {
    if m.command == PING then [Pong(m)]
    else if m.command == RPL_WELCOME then [Out(JOIN, ["#" + channel], "")]
    else if m.command == ERR_NICKNAMEINUSE then [NickRetry(nick, digit)]
    else []
  }

  /** Commands handed to the callback: all but PING, the welcome and the
      nick collision. */
  predicate Forwarded(command: string)
  {
    command != PING && command != RPL_WELCOME && command != ERR_NICKNAMEINUSE
  }

  /** Each of the three housekeeping commands gets exactly one reply and is
      not forwarded; the welcome's reply joins "#" + channel; a collision
      gets one NICK with a nick other than the configured one; everything
      else is forwarded with no reply. */
  lemma ReplyMeaning(nick: string, channel: string, m: Message, digit: nat)
    requires digit < 10
    ensures Reply(nick, channel, m, digit) == [] <==> Forwarded(m.command)
    ensures m.command == PING ==>
              |Reply(nick, channel, m, digit)| == 1 && Reply(nick, channel, m, digit)[0].command == PONG
              && Reply(nick, channel, m, digit)[0].params == m.params
              && Reply(nick, channel, m, digit)[0].trailing == m.trailing
    ensures m.command == RPL_WELCOME ==>
              |Reply(nick, channel, m, digit)| == 1 && Reply(nick, channel, m, digit)[0].command == JOIN
              && Reply(nick, channel, m, digit)[0].params == ["#" + channel]
    ensures m.command == ERR_NICKNAMEINUSE ==>
              Reply(nick, channel, m, digit) == [NickRetry(nick, digit)]
              && Reply(nick, channel, m, digit)[0].command == NICK
              && Reply(nick, channel, m, digit)[0].params[0] != nick
  {
    if m.command == ERR_NICKNAMEINUSE {
      var r := NickRetry(nick, digit);
      assert |r.params[0]| != |nick|;
    }
  }
}
