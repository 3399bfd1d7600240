/** Identity resolution of freenode.go: the nick-to-account cache, the table
    of outstanding account lookups, the matcher for NickServ's info reply,
    the handler that keeps both tables up to date from inbound lines, and
    `lookupUsername`. A waiter's channel is an identifier; what is sent on it
    is appended to a ghost log and closing it adds it to a set of closed
    channels; a send on a closed channel or a second close panics. */
module Freenode {
  import opened Wire
  import Conn
  import Sirc
  import opened Text

  /** The account the cache is seeded with, under the same nick. */
  const Seed := "sztanpet"
  const Minute: int := 60 * Conn.Second
  const NickServ := "NickServ"
  const DISCONNECT := "DISCONNECT"
  const RPL_WHOISACCOUNT := "330"
  const RPL_TRYAGAIN := "263"

  function SeedCache(): (c: map<string, string>)
    ensures c.Keys == {Seed} && c[Seed] == Seed
  {
    map[Seed := Seed]
  }

  /** `adminCache`: nick to account. */
  class AdminCache {
    var m: map<string, string>

    /** The zero value; package initialisation then calls `Init`. */
    constructor ()
      ensures m == map[]
    {
      m := map[];
    }

    /** `init`: replace the whole cache by the seed entry. */
    method Init()
      modifies this
      ensures m == SeedCache()
    {
      m := map[Seed := Seed];
    }

    method Add(nick: string, user: string)
      modifies this
      ensures m == old(m)[nick := user]
    {
      m := m[nick := user];
    }

    /** Removing an absent nick changes nothing. */
    method Del(nick: string)
      modifies this
      ensures m == old(m) - {nick}
      ensures nick !in old(m) ==> m == old(m)
    {
      m := m - {nick};
    }

    method Get(nick: string) returns (user: string, ok: bool)
      ensures ok <==> nick in m
      ensures ok ==> user == m[nick]
      ensures !ok ==> user == ""
    {
      if nick in m {
        user, ok := m[nick], true;
      } else {
        user, ok := "", false;
      }
    }
  }

  /** A waiter's channel. */
  type Chan = nat

  /** An outstanding lookup: where the answer goes and when it was asked. */
  datatype Request = Request(ch: Chan, t: int)

  /** A value sent on a waiter's channel. */
  datatype Delivery = Delivery(ch: Chan, value: string)

  /** A request is stale once it is more than one minute older than `now`. */
  predicate IsStale(r: Request, now: int)
  {
    r.t < now - Minute
  }

  /** The table after a sweep at `now`: exactly the requests that are not stale. */
  function Sweep(m: map<string, Request>, now: int): (r: map<string, Request>)
    ensures forall n :: n in r <==> n in m && !IsStale(m[n], now)
    ensures forall n :: n in r ==> r[n] == m[n]
  {
    map n | n in m && !IsStale(m[n], now) :: m[n]
  }

  /** The channels of the stale requests of `m` among the nicks `done`. */
  function StaleChans(m: map<string, Request>, done: set<string>, now: int): set<Chan>
  {
    set n | n in done && n in m && IsStale(m[n], now) :: m[n].ch
  }

  /** A sweep has nothing left to remove, and a later sweep removes at least
      what an earlier one did. */
  lemma SweepMonotone(m: map<string, Request>, now1: int, now2: int)
    requires now1 <= now2
    ensures Sweep(Sweep(m, now1), now2) == Sweep(m, now2)
    ensures Sweep(m, now2).Keys <= Sweep(m, now1).Keys
  {
  }

  /** A request survives every sweep within a minute of being made. */
  lemma FreshRequestSurvives(m: map<string, Request>, nick: string, ch: Chan, made: int, now: int)
    requires now <= made + Minute
    ensures nick in Sweep(m[nick := Request(ch, made)], now)
  {
  }

  /** What a reply for `nick` sends: the value, to the channel of the request
      for `nick` if there is one, else nothing. */
  function DeliveryTo(pending: map<string, Request>, nick: string, value: string): (d: seq<Delivery>)
    ensures nick in pending ==> d == [Delivery(pending[nick].ch, value)]
    ensures nick !in pending ==> d == []
  {
    if nick in pending then [Delivery(pending[nick].ch, value)] else []
  }

  /** A pass over the nicks `done` closes no channel twice: no stale request
      among them has a closed channel, and no two share one. */
  predicate SweepSafeOn(m: map<string, Request>, closed: set<Chan>, done: set<string>, now: int)
  {
    (forall n :: n in done && n in m && IsStale(m[n], now) ==> m[n].ch !in closed)
    && (forall n1, n2 ::
          n1 in done && n2 in done && n1 in m && n2 in m && n1 != n2 && IsStale(m[n1], now) && IsStale(m[n2], now)
          ==> m[n1].ch != m[n2].ch)
  }

  predicate SweepSafe(m: map<string, Request>, closed: set<Chan>, now: int)
  {
    SweepSafeOn(m, closed, m.Keys, now)
  }

  /** Every request waits on an open channel of its own. */
  predicate Healthy(m: map<string, Request>, closed: set<Chan>)
  {
    (forall n :: n in m ==> m[n].ch !in closed)
    && (forall n1, n2 :: n1 in m && n2 in m && n1 != n2 ==> m[n1].ch != m[n2].ch)
  }

  /** A table of requests on open channels of their own can be swept at any
      time without a double close. */
  lemma HealthySweepSafe(m: map<string, Request>, closed: set<Chan>, now: int)
    requires Healthy(m, closed)
    ensures SweepSafe(m, closed, now)
  {
  }

  /** Only `nick` may hold the channel `ch`. */
  predicate HeldAtMostBy(m: map<string, Request>, ch: Chan, nick: string)
  {
    forall n :: n in m && n != nick ==> m[n].ch != ch
  }

  /** Registering a request for `nick` on a new open channel keeps every
      request on an open channel of its own, with `ch` held by `nick` only. */
  lemma HealthyAdd(m: map<string, Request>, closed: set<Chan>, nick: string, ch: Chan, now: int)
    requires Healthy(m, closed) && ch !in closed && forall n :: n in m ==> m[n].ch != ch
    ensures Healthy(m[nick := Request(ch, now)], closed)
    ensures HeldAtMostBy(m[nick := Request(ch, now)], ch, nick)
  {
  }

  /** Removing the holder of `ch` and then closing `ch` keeps the table
      healthy and leaves `ch` held by no request. */
  lemma HealthyRelease(m: map<string, Request>, closed: set<Chan>, nick: string, ch: Chan)
    requires Healthy(m, closed) && HeldAtMostBy(m, ch, nick)
    ensures var m' := if nick in m && m[nick].ch == ch then m - {nick} else m;
            Healthy(m', closed + {ch}) && forall n :: n in m' ==> m'[n].ch != ch
  {
  }

  /** A sweep keeps a healthy table healthy and adds no holder of `ch`. */
  lemma HealthySweep(m: map<string, Request>, closed: set<Chan>, ch: Chan, nick: string, now: int)
    requires Healthy(m, closed)
    ensures Healthy(Sweep(m, now), closed)
    ensures HeldAtMostBy(m, ch, nick) ==> HeldAtMostBy(Sweep(m, now), ch, nick)
    ensures (forall n :: n in m ==> m[n].ch != ch) ==> forall n :: n in Sweep(m, now) ==> Sweep(m, now)[n].ch != ch
  {
  }

  /** On a healthy table no reply sends on a closed channel: the only
      panic left is a 330 that is missing parameters. */
  lemma HealthyReact(cache: map<string, string>, pending: map<string, Request>, closed: set<Chan>, m: Message)
    requires Healthy(pending, closed)
    ensures React(cache, pending, closed, m).res == Crash ==> m.command == RPL_WHOISACCOUNT && |m.params| < 3
  {
  }

  /** Passing over one more nick `n` whose stale request, if any, has a
      channel not yet closed: the pass stays safe and closes that channel. */
  lemma SweptOneMore(m: map<string, Request>, closed: set<Chan>, done: set<string>, n: string, now: int)
    requires done <= m.Keys && n in m && n !in done && SweepSafeOn(m, closed, done, now)
    requires IsStale(m[n], now) ==> m[n].ch !in closed + StaleChans(m, done, now)
    ensures SweepSafeOn(m, closed, done + {n}, now)
    ensures StaleChans(m, done + {n}, now)
            == StaleChans(m, done, now) + (if IsStale(m[n], now) then {m[n].ch} else {})
  {
  }

  /** The stale request `n` meets a channel the pass over `done` has already
      closed (or that was closed before it): the whole pass is not safe. */
  lemma ClosedTwice(m: map<string, Request>, closed: set<Chan>, done: set<string>, n: string, now: int)
    requires done <= m.Keys && n in m && n !in done && IsStale(m[n], now)
    requires m[n].ch in closed + StaleChans(m, done, now)
    ensures !SweepSafe(m, closed, now)
  {
    if m[n].ch !in closed {
      var n' :| n' in done && n' in m && IsStale(m[n'], now) && m[n'].ch == m[n].ch;
      assert n' != n;
    }
  }

  /** `outstandingAdminRequest`: nick to the request waiting for its account.
      `closed` holds the waiters' channels that have been closed. */
  class PendingRequests {
    var m: map<string, Request>
    ghost var delivered: seq<Delivery>
    var closed: set<Chan>

    constructor ()
      ensures m == map[] && delivered == [] && closed == {}
    {
      m := map[];
      delivered := [];
      closed := {};
    }

    /** A new request for a nick replaces any earlier one for it. */
    method Add(nick: string, ch: Chan, now: int)
      modifies this`m
      ensures m == old(m)[nick := Request(ch, now)]
    {
      m := m[nick := Request(ch, now)];
    }

    method Get(nick: string) returns (r: Request, ok: bool)
      ensures ok <==> nick in m
      ensures ok ==> r == m[nick]
    {
      ok := nick in m;
      r := if ok then m[nick] else Request(0, 0);
    }

    method Del(nick: string)
      modifies this`m
      ensures m == old(m) - {nick}
    {
      m := m - {nick};
    }

    /** One pass of `cleanup` at time `now`: every stale request is removed and
        its channel closed; the others stay as they are. Closing a channel
        that is already closed panics, so the pass panics exactly when a
        stale request's channel is closed already or shared with another
        stale request; nothing is promised of the tables after a panic. */
    method Cleanup(now: int) returns (panics: bool)
      modifies this`m, this`closed
      ensures panics <==> !SweepSafe(old(m), old(closed), now)
      ensures !panics ==> m == Sweep(old(m), now)
      ensures !panics ==> closed == old(closed) + StaleChans(old(m), old(m).Keys, now)
    {
      ghost var m0, closed0 := m, closed;
      ghost var done: set<string> := {};
      panics := false;
      var todo := m.Keys;
      while todo != {}
        invariant todo + done == m0.Keys && todo !! done
        invariant forall n :: n in m <==> n in m0 && (n in todo || !IsStale(m0[n], now))
        invariant forall n :: n in m ==> m[n] == m0[n]
        invariant closed == closed0 + StaleChans(m0, done, now)
        invariant SweepSafeOn(m0, closed0, done, now)
        decreases todo
      {
        var n :| n in todo;
        var v := m[n];
        if v.t < now - Minute {
          if v.ch in closed {
            ClosedTwice(m0, closed0, done, n, now);
            return true;
          }
          closed := closed + {v.ch};
          m := m - {n};
        }
        SweptOneMore(m0, closed0, done, n, now);
        todo := todo - {n};
        done := done + {n};
      }
      assert done == m0.Keys;
      assert m == Sweep(m0, now);
    }

    /** The pass `cleanup` evidently means to make, as its own comment
        describes it: stale requests, whose waiters close their channels
        themselves, are dropped, and no channel is closed here. */
    method Expire(now: int)
      modifies this`m
      ensures m == Sweep(old(m), now)
    {
      ghost var m0 := m;
      var todo := m.Keys;
      while todo != {}
        invariant todo <= m0.Keys
        invariant forall n :: n in m <==> n in m0 && (n in todo || !IsStale(m0[n], now))
        invariant forall n :: n in m ==> m[n] == m0[n]
        decreases todo
      {
        var n :| n in todo;
        if m[n].t < now - Minute {
          m := m - {n};
        }
        todo := todo - {n};
      }
      assert m == Sweep(m0, now);
    }
  }

  // ---------------------------------------------------------------------------
  // NickServ's info reply: `^Information on ([^ ]+) \(account \x02(.*)\x02\)`

  const InfoHead := "Information on "
  const AccountOpen := " (account \U{2}"
  const AccountClose := "\U{2})"

  datatype Info = Info(nick: string, account: string)

  /** `s` starts with the info reply for `nick` and `account`, as the pattern
      reads it: a non-empty nick without spaces and an account without line
      breaks (the pattern's `.` does not match one). */
  ghost predicate InfoShape(s: string, nick: string, account: string)
  {
    nick != [] && NoSpace(nick) && NoNewline(account)
    && InfoHead + nick + AccountOpen + account + AccountClose <= s
  }

  /** The longest prefix without a space. */
  function NickPart(s: string): (r: string)
    ensures r <= s && NoSpace(r)
    ensures |r| < |s| ==> s[|r|] == ' '
  {
    if s == [] || s[0] == ' ' then [] else [s[0]] + NickPart(s[1..])
  }

  /** The longest prefix without a line break. */
  function LinePart(s: string): (r: string)
    ensures r <= s && NoNewline(r)
  {
    if s == [] || s[0] == '\n' then [] else [s[0]] + LinePart(s[1..])
  }

  /** `AccountClose` starts at position `j` of `line`. */
  predicate CloseAt(line: string, j: int)
  {
    0 <= j && j + 2 <= |line| && line[j..j + 2] == AccountClose
  }

  /** The last position at or before `k` where `AccountClose` starts, or -1. */
  function FindClose(line: string, k: int): (r: int)
    requires k + 2 <= |line|
    ensures r < 0 ==> r == -1
    ensures r >= 0 ==> r <= k && CloseAt(line, r)
    ensures forall j :: r < j <= k ==> !CloseAt(line, j)
    decreases k + 1
  {
    if k < 0 then -1
    else if line[k..k + 2] == AccountClose then k
    else FindClose(line, k - 1)
  }

  /** The hand-written form of `infoRE.FindStringSubmatch`: the nick runs to
      the first space; the account is the longest stretch before a closing
      "\x02)" that stays on the first line. */
  function MatchInfo(s: string): Option<Info>
  {
    match Strip(InfoHead, s)
    case None => None
    case Some(rest) =>
      var nick := NickPart(rest);
      match Strip(AccountOpen, rest[|nick|..])
      case None => None
      case Some(body) =>
        var line := LinePart(body);
        var k := FindClose(line, |line| - 2);
        if nick == [] || k < 0 then None else Some(Info(nick, line[..k]))
  }

  /** Prefixes nest: the head, the nick, the opener, then a prefix of the
      body, make a prefix of the whole. */
  lemma PrefixChain(h: string, o: string, c: string, s: string, rest: string, nick: string,
                    after: string, body: string, account: string)
    requires s == h + rest && rest == nick + after && after == o + body && account + c <= body
    ensures h + nick + o + account + c <= s
  {
    var n := |h + nick + o + account + c|;
    assert s[..n] == h + nick + o + account + c;
  }

  /** What the matcher returns is an info reply for that nick and account. */
  lemma MatchInfoSound(s: string)
    ensures MatchInfo(s).Some? ==> InfoShape(s, MatchInfo(s).value.nick, MatchInfo(s).value.account)
  {
    if MatchInfo(s).Some? {
      var r := Strip(InfoHead, s);
      assert r.Some?;
      var rest := r.value;
      var nick := NickPart(rest);
      var o := Strip(AccountOpen, rest[|nick|..]);
      assert o.Some?;
      var body := o.value;
      var line := LinePart(body);
      var k := FindClose(line, |line| - 2);
      assert nick != [] && k >= 0;
      assert MatchInfo(s).value == Info(nick, line[..k]);
      ShapeOfParts(s, rest, nick, rest[|nick|..], body, line, k);
    }
  }

  /** The pieces the matcher cuts out of `s` make an info reply. */
  lemma ShapeOfParts(s: string, rest: string, nick: string, after: string, body: string, line: string, k: int)
    requires s == InfoHead + rest && nick != [] && NoSpace(nick) && nick <= rest && after == rest[|nick|..]
    requires after == AccountOpen + body && line <= body && NoNewline(line)
    requires 0 <= k && CloseAt(line, k)
    ensures InfoShape(s, nick, line[..k])
  {
    var account := line[..k];
    assert account + AccountClose == line[..k + 2];
    assert rest == nick + after;
    assert NoNewline(account) by {
      forall i | 0 <= i < |account|
        ensures account[i] != '\n'
      {
        assert account[i] == line[i];
      }
    }
    PrefixChain(InfoHead, AccountOpen, AccountClose, s, rest, nick, after, body, account);
  }

  lemma NickPartOf(nick: string, t: string)
    requires NoSpace(nick) && t != [] && t[0] == ' '
    ensures NickPart(nick + t) == nick
  {
    if nick != [] {
      assert (nick + t)[1..] == nick[1..] + t;
      NickPartOf(nick[1..], t);
    } else {
      assert nick + t == t;
    }
  }

  lemma LinePartCovers(p: string, t: string)
    requires NoNewline(p)
    ensures p <= LinePart(p + t)
  {
    if p != [] {
      assert (p + t)[1..] == p[1..] + t;
      LinePartCovers(p[1..], t);
    }
  }

  /** Every info reply is matched: the nick is the reply's nick and the
      account is at least as long as any account the reply can be read with,
      which is the pattern's greedy choice. */
  lemma MatchInfoComplete(s: string, nick: string, account: string)
    requires InfoShape(s, nick, account)
    ensures MatchInfo(s).Some?
    ensures MatchInfo(s).value.nick == nick
    ensures |account| <= |MatchInfo(s).value.account|
  {
    var whole := InfoHead + nick + AccountOpen + account + AccountClose;
    var tail := s[|whole|..];
    var body := account + AccountClose + tail;
    var rest := nick + (AccountOpen + body);
    assert s == whole + tail == InfoHead + rest;
    NickPartOf(nick, AccountOpen + body);
    assert rest[|nick|..] == AccountOpen + body;
    LinePartCovers(account + AccountClose, tail);
    MatchInfoOf(s, rest, nick, body, account);
  }

  /** Stripping a prefix leaves the tail after it. */
  lemma StripTail(p: string, s: string, t: string)
    requires s == p + t
    ensures Strip(p, s) == Some(t)
  {
    assert s[|p|..] == t;
  }

  /** The matcher, once the head, the nick and the opener are stripped,
      finds a closer at or after the end of `account`. */
  lemma MatchInfoOf(s: string, rest: string, nick: string, body: string, account: string)
    requires s == InfoHead + rest
    requires nick != [] && NickPart(rest) == nick
    requires rest[|nick|..] == AccountOpen + body
    requires account + AccountClose <= LinePart(body)
    ensures MatchInfo(s).Some?
    ensures MatchInfo(s).value.nick == nick
    ensures |account| <= |MatchInfo(s).value.account|
  {
    StripTail(InfoHead, s, rest);
    StripTail(AccountOpen, rest[|nick|..], body);
    var line := LinePart(body);
    assert CloseAt(line, |account|);
    var k := FindClose(line, |line| - 2);
    assert k >= |account|;
  }

  /** The cache entry a rename leaves: the account moves to the new nick. */
  function Renamed(cache: map<string, string>, from: string, to: string): (c: map<string, string>)
    ensures from in cache ==> to in c && c[to] == cache[from]
    ensures from in cache && from != to ==> from !in c
    ensures from !in cache ==> c == cache
    ensures forall n :: n != from && n != to ==> (n in c <==> n in cache) && (n in c ==> c[n] == cache[n])
  {
    if from in cache then (cache - {from})[to := cache[from]] else cache
  }

  /** The commands `handleFreenode` looks at. */
  predicate Watched(command: string)
  {
    command in {QUIT, PART, NICK, DISCONNECT, RPL_WHOISACCOUNT, RPL_TRYAGAIN, NOTICE}
  }

  /** What `handleFreenode` does with one line: its verdict, the messages it
      writes, the cache it leaves and what it sends on waiters' channels. */
  datatype Reaction = Reaction(res: Outcome, out: seq<Message>, cache: map<string, string>, sent: seq<Delivery>)

  /** The answer `value` for `nick`: nothing when no request waits for it,
      a send on the request's channel, or a panic when that channel is
      already closed. */
  function Answer(cache: map<string, string>, pending: map<string, Request>, closed: set<Chan>,
                  nick: string, value: string): (r: Reaction)
  {
    if nick !in pending then Reaction(Consumed, [], cache, [])
    else if pending[nick].ch in closed then Reaction(Crash, [], cache, [])
    else Reaction(Consumed, [], cache, [Delivery(pending[nick].ch, value)])
  }

  /** `handleFreenode` on the cache `cache`, the requests `pending` and the
      closed channels `closed`. Lines it does not look at are declined
      untouched. 330 sends the account (third parameter) to the request for
      the nick (second parameter) if there is one, leaving the request in
      place; 263 asks NickServ about the 263 line's sender; a NOTICE from
      NickServ that matches the info pattern answers the request for its
      nick like 330, and any other NOTICE is declined. PART and QUIT forget
      the sender, a rename moves the sender's entry, and DISCONNECT reseeds
      the cache. A missing parameter and a send on a closed channel panic. */
  function React(cache: map<string, string>, pending: map<string, Request>, closed: set<Chan>, m: Message)
    : (r: Reaction)
    ensures !Watched(m.command) ==> r == Reaction(Declined, [], cache, [])
    ensures r.res == Crash ==> r.out == [] && r.cache == cache && r.sent == []
    ensures m.command == RPL_WHOISACCOUNT ==> r.out == [] && r.cache == cache
    ensures m.command == RPL_WHOISACCOUNT ==>
              (r.res == Crash <==> |m.params| < 2 || (m.params[1] in pending && (|m.params| < 3 || pending[m.params[1]].ch in closed)))
    ensures m.command == RPL_WHOISACCOUNT && r.res != Crash ==>
              r.res == Consumed
              && r.sent == if m.params[1] in pending then [Delivery(pending[m.params[1]].ch, m.params[2])] else []
    ensures m.command == RPL_TRYAGAIN ==>
              r == Reaction(Consumed, [Out(PRIVMSG, [NickServ], "info " + m.prefix)], cache, [])
    ensures m.command == NOTICE && (m.prefix != NickServ || MatchInfo(m.trailing).None?) ==>
              r == Reaction(Declined, [], cache, [])
    ensures m.command == NOTICE && m.prefix == NickServ && MatchInfo(m.trailing).Some? ==>
              var info := MatchInfo(m.trailing).value;
              r.out == [] && r.cache == cache
              && (r.res == Crash <==> info.nick in pending && pending[info.nick].ch in closed)
              && (r.res != Crash ==> r.res == Consumed && r.sent == DeliveryTo(pending, info.nick, info.account))
    ensures m.command in {PART, QUIT} ==> r == Reaction(Consumed, [], cache - {m.prefix}, [])
    ensures m.command == DISCONNECT ==> r == Reaction(Consumed, [], SeedCache(), [])
    ensures m.command == NICK ==> r == Reaction(Consumed, [], Renamed(cache, m.prefix, m.trailing), [])
    ensures forall d :: d in r.sent ==> d.ch !in closed && exists n :: n in pending && pending[n].ch == d.ch
  {
    if !Watched(m.command) then Reaction(Declined, [], cache, [])
    else if m.command == RPL_WHOISACCOUNT then
      if |m.params| < 2 then Reaction(Crash, [], cache, [])
      else if m.params[1] in pending && |m.params| < 3 then Reaction(Crash, [], cache, [])
      else Answer(cache, pending, closed, m.params[1], if |m.params| < 3 then "" else m.params[2])
    else if m.command == RPL_TRYAGAIN then
      Reaction(Consumed, [Out(PRIVMSG, [NickServ], "info " + m.prefix)], cache, [])
    else if m.command == NOTICE then
      if m.prefix != NickServ || MatchInfo(m.trailing).None? then Reaction(Declined, [], cache, [])
      else Answer(cache, pending, closed, MatchInfo(m.trailing).value.nick, MatchInfo(m.trailing).value.account)
    else if m.command == PART || m.command == QUIT then Reaction(Consumed, [], cache - {m.prefix}, [])
    else if m.command == DISCONNECT then Reaction(Consumed, [], SeedCache(), [])
    else Reaction(Consumed, [], Renamed(cache, m.prefix, m.trailing), [])
  }

  /** `handleFreenode` on the shared tables, writing on `c` at the instant
      `now`: it does what `React` says, records its sends on the waiters'
      channels, and charges what it writes to the flood budget. */
  method HandleFreenode(c: Sirc.IConn, ac: AdminCache, oar: PendingRequests, m: Message, now: int)
    returns (res: Outcome, out: seq<Message>, waits: seq<int>)
    requires c.Valid()
    modifies c`badness, c`lastsent, ac, oar`delivered
    ensures c.Valid()
    ensures oar.m == old(oar.m) && oar.closed == old(oar.closed)
    ensures var r := React(old(ac.m), old(oar.m), old(oar.closed), m);
            res == r.res && out == r.out && ac.m == r.cache && oar.delivered == old(oar.delivered) + r.sent
    ensures Conn.Charges(c.Flood(), waits) == Conn.ChargeLines(old(c.Flood()), out, now)
  {
    out, waits := [], [];
    if !Watched(m.command) {
      return Declined, [], [];
    }
    res := Consumed;
    if m.command == RPL_WHOISACCOUNT {
      if |m.params| < 2 {
        return Crash, [], [];
      }
      var v, ok := oar.Get(m.params[1]);
      if ok {
        if |m.params| < 3 || v.ch in oar.closed {
          return Crash, [], [];
        }
        oar.delivered := oar.delivered + [Delivery(v.ch, m.params[2])];
      }
    } else if m.command == RPL_TRYAGAIN {
      out := [Out(PRIVMSG, [NickServ], "info " + m.prefix)];
      waits := c.WriteAll(out, now);
    } else if m.command == NOTICE {
      if m.prefix != NickServ {
        return Declined, [], [];
      }
      var matches := MatchInfo(m.trailing);
      if matches.None? {
        return Declined, [], [];
      }
      var v, ok := oar.Get(matches.value.nick);
      if ok {
        if v.ch in oar.closed {
          return Crash, [], [];
        }
        oar.delivered := oar.delivered + [Delivery(v.ch, matches.value.account)];
      }
    } else if m.command == PART || m.command == QUIT {
      ac.Del(m.prefix);
    } else if m.command == DISCONNECT {
      ac.Init();
    } else {
      var user, admin := ac.Get(m.prefix);
      if admin {
        ac.Del(m.prefix);
        ac.Add(m.trailing, user);
      }
    }
  }

  /** `lookupUsername`: register the sender's request (replacing any earlier
      one) and write a WHOIS for the sender on `c`. */
  method LookupUsername(c: Sirc.IConn, oar: PendingRequests, m: Message, ch: Chan, now: int)
    returns (out: seq<Message>, waits: seq<int>)
    requires c.Valid()
    modifies c`badness, c`lastsent, oar`m
    ensures c.Valid()
    ensures oar.m == old(oar.m)[m.prefix := Request(ch, now)]
    ensures out == [Out(WHOIS, [m.prefix, m.prefix], "")]
    ensures Conn.Charges(c.Flood(), waits) == Conn.ChargeLines(old(c.Flood()), out, now)
  {
    oar.Add(m.prefix, ch, now);
    out := [Out(WHOIS, [m.prefix, m.prefix], "")];
    waits := c.WriteAll(out, now);
  }

  /** A lookup followed by the server's 330 for that nick sends the account
      on the lookup's own channel; one reply sends once. Answering does not
      remove the request (`HandleFreenode` leaves the table as it is), so
      every further 330 for the nick before the request goes stale, the
      sweep in between or not, sends on the channel again. Once a sweep
      past the minute has dropped the request, a reply sends nothing. */
  lemma LookupThenReply(cache: map<string, string>, pending: map<string, Request>, closed: set<Chan>,
                        nick: string, ch: Chan, now: int, reply: Message, later: int)
    requires ch !in closed
    requires reply.command == RPL_WHOISACCOUNT && |reply.params| >= 3 && reply.params[1] == nick
    ensures var p := pending[nick := Request(ch, now)];
            React(cache, p, closed, reply) == Reaction(Consumed, [], cache, [Delivery(ch, reply.params[2])])
    ensures later <= now + Minute ==>
              React(cache, Sweep(pending[nick := Request(ch, now)], later), closed, reply).sent
              == [Delivery(ch, reply.params[2])]
    ensures later > now + Minute ==>
              React(cache, Sweep(pending[nick := Request(ch, now)], later), closed, reply)
              == Reaction(Consumed, [], cache, [])
  {
  }
}
