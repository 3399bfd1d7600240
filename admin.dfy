/** The bot's own IRC handler of irc.go: the welcome burst, the dispatch of
    inbound lines to the freenode bookkeeping and to the admin commands, the
    admin check that waits for the sender's account, and the admin commands
    `.addadmin`, `.deladmin` and `.raw` with their effect on the admin set. */
module Admin {
  import opened Wire
  import opened Text
  import Freenode
  import Sirc
  import Conn

  const Systemd := "#systemd"
  const AddedText := "Added user successfully"
  const RemovedText := "Removed user successfully"
  const UnparsableText := "Could not parse, are you sure you know the irc protocol?"

  datatype Verb = AddAdmin | DelAdmin | Raw

  function VerbName(v: Verb): (name: string)
    ensures |name| > 0 && name[0] != '.' && !IsRegexSpace(name[0])
  {
    match v
    case AddAdmin => "addadmin"
    case DelAdmin => "deladmin"
    case Raw => "raw"
  }

  /** An admin command: the verb and the text after the white space that
      follows it (the second submatch of `adminRE`). */
  datatype Command = Command(verb: Verb, arg: string)

  /** How much white space `\s+` consumes: the length of the longest
      prefix of regex white space. */
  function SpaceLen(s: string): (n: nat)
    ensures n <= |s|
  {
    if s != [] && IsRegexSpace(s[0]) then 1 + SpaceLen(s[1..]) else 0
  }

  /** `SpaceLen` covers white space only, and all of it. */
  lemma {:induction false} SpaceLenMeaning(s: string)
    ensures AllRegexSpace(s[..SpaceLen(s)])
    ensures SpaceLen(s) < |s| ==> !IsRegexSpace(s[SpaceLen(s)])
  {
    if s != [] && IsRegexSpace(s[0]) {
      SpaceLenMeaning(s[1..]);
      assert s[..SpaceLen(s)] == [s[0]] + s[1..][..SpaceLen(s[1..])];
    }
  }

  lemma {:induction false} SpaceLenSkips(w: string, t: string)
    requires AllRegexSpace(w)
    ensures SpaceLen(w + t) == |w| + SpaceLen(t)
  {
    if w == [] {
      assert w + t == t;
    } else {
      assert (w + t)[0] == w[0];
      assert (w + t)[1..] == w[1..] + t;
      SpaceLenSkips(w[1..], t);
    }
  }

  /** The verb alternatives of `adminRE`, tried on the text after the dot. */
  function ParseVerb(s: string): (r: Option<(Verb, string)>)
    ensures r.Some? ==> s == VerbName(r.value.0) + r.value.1
  {
    match Strip(VerbName(AddAdmin), s)
    case Some(rest) => Some((AddAdmin, rest))
    case None =>
      match Strip(VerbName(DelAdmin), s)
      case Some(rest) => Some((DelAdmin, rest))
      case None =>
        match Strip(VerbName(Raw), s)
        case Some(rest) => Some((Raw, rest))
        case None => None
  }

  /** `adminRE.FindStringSubmatch` as a hand-written parser: a dot, a verb,
      at least one white-space character taken greedily, and the rest of the
      text, which `.` with `$` only matches when it holds no newline. */
  function ParseAdmin(s: string): Option<Command>
  {
    if |s| == 0 || s[0] != '.' then None
    else
      match ParseVerb(s[1..])
      case None => None
      case Some(vr) => AfterVerb(vr.0, vr.1)
  }

  /** The part of the pattern after the verb: `\s+(.*)$`. */
  function AfterVerb(v: Verb, t: string): Option<Command>
  {
    var n := SpaceLen(t);
    var arg := t[n..];
    if n > 0 && NoNewline(arg) then Some(Command(v, arg)) else None
  }

  /** The strings `adminRE` matches, split into verb, white space and rest. */
  ghost predicate AdminShape(s: string, v: Verb, w: string, arg: string)
  {
    s == "." + VerbName(v) + w + arg && w != [] && AllRegexSpace(w) && NoNewline(arg)
  }

  /** What the parser accepts has the shape of the pattern, and the argument
      does not start with white space the pattern's `\s+` could have taken. */
  lemma ParseAdminSound(s: string)
    ensures ParseAdmin(s).Some? ==>
              exists w :: AdminShape(s, ParseAdmin(s).value.verb, w, ParseAdmin(s).value.arg)
    ensures ParseAdmin(s).Some? && ParseAdmin(s).value.arg != [] ==> !IsRegexSpace(ParseAdmin(s).value.arg[0])
  {
    if ParseAdmin(s).Some? {
      var vr := ParseVerb(s[1..]).value;
      var n := SpaceLen(vr.1);
      AfterVerbSome(vr.0, vr.1);
      ShapeOfParts(s, vr.0, vr.1, n);
    }
  }

  lemma AfterVerbSome(v: Verb, t: string)
    requires AfterVerb(v, t).Some?
    ensures AfterVerb(v, t).value == Command(v, t[SpaceLen(t)..])
    ensures SpaceLen(t) > 0 && NoNewline(t[SpaceLen(t)..])
  {
  }

  /** The pieces the parser cuts out of `s` make a line of the pattern's
      shape, whose argument does not start with white space. */
  lemma ShapeOfParts(s: string, v: Verb, t: string, n: nat)
    requires |s| > 0 && s[0] == '.' && s[1..] == VerbName(v) + t
    requires n == SpaceLen(t) && n > 0 && NoNewline(t[n..])
    ensures AdminShape(s, v, t[..n], t[n..])
    ensures t[n..] != [] ==> !IsRegexSpace(t[n..][0])
  {
    SpaceLenMeaning(t);
    var vn := VerbName(v);
    assert s == [s[0]] + s[1..] == "." + (vn + t);
    assert t == t[..n] + t[n..];
    assert "." + (vn + (t[..n] + t[n..])) == "." + vn + t[..n] + t[n..];
  }

  /** No verb name is a prefix of another, so the verb is found whatever
      follows it. */
  lemma ParseVerbOf(v: Verb, t: string)
    ensures ParseVerb(VerbName(v) + t) == Some((v, t))
  {
    var s := VerbName(v) + t;
    assert s[..|VerbName(v)|] == VerbName(v);
    if v != AddAdmin {
      assert s[0] != 'a';
    }
    if v == Raw {
      assert s[0] != 'd';
    }
  }

  /** The parser on a dot and a verb name followed by `t`. */
  lemma ParseAdminAfterVerb(s: string, v: Verb, t: string)
    requires s == "." + VerbName(v) + t
    ensures ParseAdmin(s) == AfterVerb(v, t)
  {
    assert s[0] == '.';
    assert s[1..] == VerbName(v) + t;
    ParseVerbOf(v, t);
  }

  lemma TrimSkipsRegexSpace(arg: string, n: nat)
    requires n <= |arg| && AllRegexSpace(arg[..n])
    ensures TrimSpace(arg) == TrimSpace(arg[n..])
  {
    var sp := arg[..n];
    forall i | 0 <= i < |sp|
      ensures IsSpace(sp[i])
    {
      RegexSpaceIsSpace(sp[i]);
    }
    assert arg == sp + arg[n..];
    TrimSpaceSkipsLeading(sp, arg[n..]);
  }

  /** Every string of the pattern's shape is parsed, with the same verb and
      an argument that differs from the one of the shape only by leading
      white space. */
  lemma ParseAdminComplete(s: string, v: Verb, w: string, arg: string)
    requires AdminShape(s, v, w, arg)
    ensures ParseAdmin(s).Some? && ParseAdmin(s).value.verb == v
    ensures ParseAdmin(s).value.arg == arg[SpaceLen(arg)..] && AllRegexSpace(arg[..SpaceLen(arg)])
  {
    assert s == "." + VerbName(v) + (w + arg);
    ParseAdminAfterVerb(s, v, w + arg);
    AfterVerbComplete(v, w, arg);
    SpaceLenMeaning(arg);
  }

  lemma AfterVerbComplete(v: Verb, w: string, arg: string)
    requires w != [] && AllRegexSpace(w) && NoNewline(arg)
    ensures AfterVerb(v, w + arg) == Some(Command(v, arg[SpaceLen(arg)..]))
  {
    var t := w + arg;
    var k := SpaceLen(arg);
    SpaceLenSkips(w, arg);
    DropJoined(w, arg, k);
    SuffixNoNewline(arg, k);
    AfterVerbOf(v, t, |w| + k, arg[k..]);
  }

  lemma AfterVerbOf(v: Verb, t: string, n: nat, rest: string)
    requires n == SpaceLen(t) && n > 0 && rest == t[n..] && NoNewline(rest)
    ensures AfterVerb(v, t) == Some(Command(v, rest))
  {
  }

  lemma DropJoined(w: string, arg: string, k: nat)
    requires k <= |arg|
    ensures (w + arg)[|w| + k..] == arg[k..]
  {
  }

  lemma SuffixNoNewline(s: string, k: nat)
    requires k <= |s| && NoNewline(s)
    ensures NoNewline(s[k..])
  {
    forall i | 0 <= i < |s| - k
      ensures s[k..][i] != '\n'
    {
      assert s[k..][i] == s[k + i];
    }
  }

  /** So however the pattern splits the line, the trimmed user name is the
      same. */
  lemma ParseAdminTrimmed(s: string, v: Verb, w: string, arg: string)
    requires AdminShape(s, v, w, arg)
    ensures ParseAdmin(s).Some? && TrimSpace(ParseAdmin(s).value.arg) == TrimSpace(arg)
  {
    ParseAdminComplete(s, v, w, arg);
    TrimSkipsRegexSpace(arg, SpaceLen(arg));
  }

  /** The admin set after a parsed command: `.addadmin` adds and `.deladmin`
      removes the trimmed argument, `.raw` leaves the set alone. */
  function ApplyAdmin(admins: set<string>, c: Command): (r: set<string>)
    ensures forall u :: u != TrimSpace(c.arg) ==> (u in r <==> u in admins)
    ensures c.verb == AddAdmin ==> TrimSpace(c.arg) in r
    ensures c.verb == DelAdmin ==> TrimSpace(c.arg) !in r
    ensures c.verb == Raw ==> r == admins
  {
    match c.verb
    case AddAdmin => admins + {TrimSpace(c.arg)}
    case DelAdmin => admins - {TrimSpace(c.arg)}
    case Raw => admins
  }

  /** Adding or removing the same user twice has the effect of doing it
      once, and removing a user just added restores a set that did not hold
      them. */
  lemma ApplyAdminLaws(admins: set<string>, c: Command, u: string)
    ensures ApplyAdmin(ApplyAdmin(admins, c), c) == ApplyAdmin(admins, c)
    ensures TrimSpace(u) !in admins ==>
              ApplyAdmin(ApplyAdmin(admins, Command(AddAdmin, u)), Command(DelAdmin, u)) == admins
    ensures TrimSpace(u) in admins ==>
              ApplyAdmin(ApplyAdmin(admins, Command(DelAdmin, u)), Command(AddAdmin, u)) == admins
  {
    var name := TrimSpace(u);
    var added := ApplyAdmin(admins, Command(AddAdmin, u));
    var removed := ApplyAdmin(admins, Command(DelAdmin, u));
    assert added == admins + {name};
    assert removed == admins - {name};
    assert ApplyAdmin(added, Command(DelAdmin, u)) == added - {name};
    assert ApplyAdmin(removed, Command(AddAdmin, u)) == removed + {name};
  }

  /** Padding around the user name does not matter: any line of the
      pattern's shape adds or removes exactly the trimmed name. */
  lemma PaddedCommand(admins: set<string>, s: string, v: Verb, w: string, arg: string)
    requires AdminShape(s, v, w, arg) && v != Raw
    ensures ParseAdmin(s).Some?
    ensures v == AddAdmin ==> ApplyAdmin(admins, ParseAdmin(s).value) == admins + {TrimSpace(arg)}
    ensures v == DelAdmin ==> ApplyAdmin(admins, ParseAdmin(s).value) == admins - {TrimSpace(arg)}
  {
    ParseAdminComplete(s, v, w, arg);
    ParseAdminTrimmed(s, v, w, arg);
    ApplyAdminByName(admins, ParseAdmin(s).value);
  }

  lemma ApplyAdminByName(admins: set<string>, c: Command)
    ensures c.verb == AddAdmin ==> ApplyAdmin(admins, c) == admins + {TrimSpace(c.arg)}
    ensures c.verb == DelAdmin ==> ApplyAdmin(admins, c) == admins - {TrimSpace(c.arg)}
  {
  }

  /** The reply to a parsed admin command sent by `m`: a NOTICE to the sender
      for the two set updates, and for `.raw` the message `parsed` (the IRC
      parse of the untrimmed argument) or a NOTICE that it did not parse. */
  function AdminReply(m: Message, c: Command, parsed: Option<Message>): (out: seq<Message>)
    ensures |out| == 1
    ensures c.verb == AddAdmin ==> out[0] == Sirc.Notice(m, [AddedText])
    ensures c.verb == DelAdmin ==> out[0] == Sirc.Notice(m, [RemovedText])
    ensures c.verb == Raw && parsed.Some? ==> out[0] == parsed.value
    ensures c.verb == Raw && parsed.None? ==> out[0] == Sirc.Notice(m, [UnparsableText])
    ensures out[0] != Sirc.Notice(m, [UnparsableText]) ==> c.verb != Raw || parsed.Some?
  {
    match c.verb
    case AddAdmin => [Sirc.Notice(m, [AddedText])]
    case DelAdmin => [Sirc.Notice(m, [RemovedText])]
    case Raw => if parsed.None? then [Sirc.Notice(m, [UnparsableText])] else [parsed.value]
  }

  /** The persisted admin set. `saves` counts the writes of the state file. */
  class AdminState {
    var admins: set<string>
    ghost var saves: nat

    /** The state as loaded at start-up: the seed admin, with the stored set
        (if a state file exists) decoded into it; loading writes the file
        once. */
    constructor (stored: set<string>)
      ensures admins == {Freenode.Seed} + stored && saves == 1
    {
      admins := {Freenode.Seed} + stored;
      saves := 1;
    }

    /** `handleAdmin`: a line that is not an admin command is refused
        untouched; a command updates the set, is saved, and is answered on
        `c` at the instant `now`, the answer charged to the flood budget.
        `parse` is the IRC message parser the `.raw` argument goes through. */
    method HandleAdmin(c: Sirc.IConn, m: Message, parse: string -> Option<Message>, now: int)
      returns (matched: bool, out: seq<Message>, waits: seq<int>)
      requires c.Valid()
      modifies this, c`badness, c`lastsent
      ensures c.Valid()
      ensures matched <==> ParseAdmin(m.trailing).Some?
      ensures !matched ==> admins == old(admins) && saves == old(saves) && out == []
      ensures matched ==>
                admins == ApplyAdmin(old(admins), ParseAdmin(m.trailing).value) && saves == old(saves) + 1
                && out == AdminReply(m, ParseAdmin(m.trailing).value, parse(ParseAdmin(m.trailing).value.arg))
      ensures Conn.Charges(c.Flood(), waits) == Conn.ChargeLines(old(c.Flood()), out, now)
    {
      var matches := ParseAdmin(m.trailing);
      if matches.None? {
        waits := c.WriteAll([], now);
        return false, [], waits;
      }
      var cmd := matches.value;
      ApplyAdminByName(admins, cmd);
      var user := TrimSpace(cmd.arg);
      match cmd.verb {
        case AddAdmin =>
          admins := admins + {user};
          out := [Sirc.Notice(m, [AddedText])];
        case DelAdmin =>
          admins := admins - {user};
          out := [Sirc.Notice(m, [RemovedText])];
        case Raw =>
          var nm := parse(cmd.arg);
          if nm.None? {
            out := [Sirc.Notice(m, [UnparsableText])];
          } else {
            out := [nm.value];
          }
      }
      waits := c.WriteAll(out, now);
      saves := saves + 1;
      matched := true;
    }
  }

  /** The three lines sent on the welcome reply: identify to NickServ, set
      mode +R on the bot's own nick, and join #systemd. */
  function WelcomeBurst(nick: string, password: string): (out: seq<Message>)
    ensures |out| == 3
    ensures out[0].command == PRIVMSG && out[0].params == [Freenode.NickServ]
            && out[0].trailing == "identify " + password
    ensures out[1].command == MODE && out[1].params == [nick, "+R"] && out[1].trailing == ""
    ensures out[2].command == JOIN && out[2].params == [Systemd] && out[2].trailing == ""
  {
    [Out(PRIVMSG, [Freenode.NickServ], "identify " + password),
     Out(MODE, [nick, "+R"], ""),
     Out(JOIN, [Systemd], "")]
  }

  /** `m.Trailing[0] == '.'` as written: `None` stands for the index panic
      on an empty text. */
  function CommandLineAsWritten(t: string): (r: Option<bool>)
    ensures r.None? <==> t == []
  {
    if |t| == 0 then None else Some(t[0] == '.')
  }

  /** A PRIVMSG whose text is empty, which a client sends as
      "PRIVMSG #systemd" or with an empty trailing part, reaches the check
      and panics the read loop. */
  lemma EmptyTextPanics()
    ensures var m := Message("someone", PRIVMSG, [Systemd], "");
            !Freenode.Watched(m.command) && CommandLineAsWritten(m.trailing).None?
  {
  }

  /** The intended test: the text starts with a dot. */
  predicate IsCommandLine(t: string)
  {
    |t| > 0 && t[0] == '.'
  }

  /** The corrected test agrees with the written one wherever that one does
      not panic, refuses the empty text, and lets every admin command
      through. */
  lemma CommandLineCorrected(t: string)
    ensures CommandLineAsWritten(t).Some? ==> IsCommandLine(t) == CommandLineAsWritten(t).value
    ensures t == [] ==> !IsCommandLine(t)
    ensures ParseAdmin(t).Some? ==> IsCommandLine(t)
  {
  }

  /** `handleIRC` for one inbound line, writing on `c` at the instant
      `now`. The welcome writes the welcome burst and is not claimed.
      Otherwise the freenode bookkeeping reacts to the lines it watches, as
      `Freenode.React` says. A PRIVMSG the factoid handler does not claim
      (`factoidHandled` is its verdict) is tested for a leading dot as
      written, panicking on an empty text; one that starts with a dot starts
      the admin check (`check`) and is claimed. */
  method HandleIRC(c: Sirc.IConn, ac: Freenode.AdminCache, oar: Freenode.PendingRequests, m: Message,
                   nick: string, nickservPassword: string, factoidHandled: bool, now: int)
    returns (res: Outcome, out: seq<Message>, waits: seq<int>, check: bool)
    requires c.Valid()
    modifies c`badness, c`lastsent, ac, oar`delivered
    ensures c.Valid()
    ensures oar.m == old(oar.m) && oar.closed == old(oar.closed)
    ensures Conn.Charges(c.Flood(), waits) == Conn.ChargeLines(old(c.Flood()), out, now)
    ensures m.command == RPL_WELCOME ==>
              res == Declined && out == WelcomeBurst(nick, nickservPassword) && !check
              && ac.m == old(ac.m) && oar.delivered == old(oar.delivered)
    ensures m.command != RPL_WELCOME && Freenode.Watched(m.command) ==>
              var r := Freenode.React(old(ac.m), old(oar.m), old(oar.closed), m);
              res == r.res && out == r.out && ac.m == r.cache && oar.delivered == old(oar.delivered) + r.sent
              && !check
    ensures m.command == PRIVMSG ==> ac.m == old(ac.m) && oar.delivered == old(oar.delivered) && out == []
    ensures m.command == PRIVMSG && factoidHandled ==> res == Consumed && !check
    ensures m.command == PRIVMSG && !factoidHandled ==>
              (res == Crash <==> CommandLineAsWritten(m.trailing).None?)
              && (res != Crash ==> check == CommandLineAsWritten(m.trailing).value
                                   && res == if check then Consumed else Declined)
    ensures check ==> m.command == PRIVMSG && IsCommandLine(m.trailing)
    ensures m.command != RPL_WELCOME && m.command != PRIVMSG && !Freenode.Watched(m.command) ==>
              res == Declined && out == [] && ac.m == old(ac.m) && oar.delivered == old(oar.delivered) && !check
  {
    check := false;
    if m.command == RPL_WELCOME {
      out := WelcomeBurst(nick, nickservPassword);
      waits := c.WriteAll(out, now);
      return Declined, out, waits, false;
    }
    res, out, waits := Freenode.HandleFreenode(c, ac, oar, m, now);
    if res != Declined {
      return;
    }
    if m.command != PRIVMSG {
      return;
    }
    if factoidHandled {
      return Consumed, out, waits, false;
    }
    var dot := CommandLineAsWritten(m.trailing);
    if dot.None? {
      return Crash, out, waits, false;
    }
    if dot.value {
      return Consumed, out, waits, true;
    }
  }

  /** The first half of `checkAdmin`: a cached account is handed over at
      once; otherwise the sender's account is looked up on `c`, to arrive
      later on channel `ch`. */
  method CheckAdmin(c: Sirc.IConn, ac: Freenode.AdminCache, oar: Freenode.PendingRequests, m: Message,
                    ch: Freenode.Chan, now: int)
    returns (cached: Option<string>, out: seq<Message>, waits: seq<int>)
    requires c.Valid()
    modifies c`badness, c`lastsent, oar`m
    ensures c.Valid()
    ensures Conn.Charges(c.Flood(), waits) == Conn.ChargeLines(old(c.Flood()), out, now)
    ensures m.prefix in ac.m ==> cached == Some(ac.m[m.prefix]) && out == [] && oar.m == old(oar.m)
    ensures m.prefix !in ac.m ==>
              cached.None? && out == [Out(WHOIS, [m.prefix, m.prefix], "")]
              && oar.m == old(oar.m)[m.prefix := Freenode.Request(ch, now)]
  {
    var u, ok := ac.Get(m.prefix);
    if ok {
      waits := c.WriteAll([], now);
      return Some(u), [], waits;
    }
    cached := None;
    out, waits := Freenode.LookupUsername(c, oar, m, ch, now);
  }

  /** The waiting half of `checkAdmin`: `received` is what the channel
      yields (`None` when it was closed after the minute passed). Only a
      sender whose account is an admin gets past it; the factoid admin
      commands go first (`factoidAdmin` is their verdict), then
      `handleAdmin`, which answers on `c` at the instant `now`. */
  method Authorize(c: Sirc.IConn, st: AdminState, m: Message, received: Option<string>, factoidAdmin: bool,
                   parse: string -> Option<Message>, now: int)
    returns (handled: bool, out: seq<Message>, waits: seq<int>)
    requires c.Valid()
    modifies st, c`badness, c`lastsent
    ensures c.Valid()
    ensures Conn.Charges(c.Flood(), waits) == Conn.ChargeLines(old(c.Flood()), out, now)
    ensures received.None? || received.value !in old(st.admins) || factoidAdmin ==>
              !handled && out == [] && st.admins == old(st.admins) && st.saves == old(st.saves)
    ensures received.Some? && received.value in old(st.admins) && !factoidAdmin ==>
              (handled <==> ParseAdmin(m.trailing).Some?)
              && (handled ==> st.admins == ApplyAdmin(old(st.admins), ParseAdmin(m.trailing).value)
                              && out == AdminReply(m, ParseAdmin(m.trailing).value,
                                                   parse(ParseAdmin(m.trailing).value.arg)))
              && (!handled ==> st.admins == old(st.admins) && out == [])
    ensures st.admins != old(st.admins) ==> received.Some? && received.value in old(st.admins)
  {
    if received.None? || received.value !in st.admins || factoidAdmin {
      waits := c.WriteAll([], now);
      return false, [], waits;
    }
    handled, out, waits := st.HandleAdmin(c, m, parse, now);
  }

  /** `close(ch)` at the end of `checkAdmin`, after its minute: closing a
      channel that is already closed panics. */
  method CloseWaiter(oar: Freenode.PendingRequests, ch: Freenode.Chan) returns (panics: bool)
    modifies oar`closed
    ensures panics <==> ch in old(oar.closed)
    ensures oar.closed == old(oar.closed) + {ch}
  {
    panics := ch in oar.closed;
    oar.closed := oar.closed + {ch};
  }

  /** The waiter's channel is new: closed by no one and held by no request. */
  predicate FreshChan(oar: map<string, Freenode.Request>, closed: set<Freenode.Chan>, ch: Freenode.Chan)
  {
    ch !in closed && forall n :: n in oar ==> oar[n].ch != ch
  }

  /** An admin check of a sender missing from the cache, as written, on a
      table whose requests all wait on open channels of their own. The
      lookup registers the fresh channel `ch` and no request is removed
      when answered, so after the minute both the `cleanup` pass (at
      `later`) and the waiter close `ch`. Whichever runs second panics:
      the waiter when the sweep came first, the sweep otherwise. */
  method LookupAsWritten(c: Sirc.IConn, ac: Freenode.AdminCache, oar: Freenode.PendingRequests, m: Message,
                         ch: Freenode.Chan, now: int, later: int, sweepFirst: bool)
    returns (sweepPanics: bool, waiterPanics: bool)
    requires c.Valid()
    requires Freenode.Healthy(oar.m, oar.closed) && FreshChan(oar.m, oar.closed, ch)
    requires m.prefix !in ac.m && later > now + Freenode.Minute
    modifies c`badness, c`lastsent, oar`m, oar`closed
    ensures sweepFirst ==> !sweepPanics && waiterPanics
    ensures !sweepFirst ==> !waiterPanics && sweepPanics
  {
    var cached, out, waits := CheckAdmin(c, ac, oar, m, ch, now);
    ghost var m1 := oar.m;
    assert m.prefix in m1 && m1[m.prefix] == Freenode.Request(ch, now);
    if sweepFirst {
      Freenode.HealthySweepSafe(m1, oar.closed, later);
      sweepPanics := oar.Cleanup(later);
      assert ch in Freenode.StaleChans(m1, m1.Keys, later);
      waiterPanics := CloseWaiter(oar, ch);
    } else {
      waiterPanics := CloseWaiter(oar, ch);
      assert Freenode.IsStale(oar.m[m.prefix], later) && oar.m[m.prefix].ch in oar.closed;
      sweepPanics := oar.Cleanup(later);
    }
  }

  /** As written, the server's 330 for the sender arriving after the waiter
      gave up and closed `ch` but before the next sweep finds the request
      still in place and sends on the closed channel: a panic. */
  method LookupReplyAsWritten(c: Sirc.IConn, ac: Freenode.AdminCache, oar: Freenode.PendingRequests,
                              m: Message, ch: Freenode.Chan, now: int, later: int, reply: Message)
    returns (waiterPanics: bool, res: Outcome)
    requires c.Valid()
    requires FreshChan(oar.m, oar.closed, ch) && m.prefix !in ac.m
    requires reply.command == Freenode.RPL_WHOISACCOUNT && |reply.params| >= 3 && reply.params[1] == m.prefix
    modifies c`badness, c`lastsent, ac, oar`m, oar`closed, oar`delivered
    ensures !waiterPanics && res == Crash
  {
    var cached, out, waits := CheckAdmin(c, ac, oar, m, ch, now);
    waiterPanics := CloseWaiter(oar, ch);
    res, out, waits := Freenode.HandleFreenode(c, ac, oar, reply, later);
  }

  /** The end of the corrected `checkAdmin`: the waiter removes its own
      request, if it is still the one holding `ch`, before closing `ch`. */
  method ReleaseWaiter(oar: Freenode.PendingRequests, nick: string, ch: Freenode.Chan) returns (panics: bool)
    modifies oar`m, oar`closed
    ensures oar.m == if nick in old(oar.m) && old(oar.m)[nick].ch == ch then old(oar.m) - {nick} else old(oar.m)
    ensures oar.closed == old(oar.closed) + {ch}
    ensures panics <==> ch in old(oar.closed)
  {
    var r, ok := oar.Get(nick);
    if ok && r.ch == ch {
      oar.Del(nick);
    }
    panics := CloseWaiter(oar, ch);
  }

  /** The corrected lifecycle: the sweep only forgets stale requests
      (`Expire`) and the waiter removes its request before closing its
      channel. In either order of the sweep and the waiter, with a reply
      `reply` arriving after the waiter is done, nothing is closed twice,
      every request still waits on an open channel of its own, no request
      holds `ch`, and a reply can only panic by being a 330 that is missing
      parameters. */
  method LookupCorrected(c: Sirc.IConn, ac: Freenode.AdminCache, oar: Freenode.PendingRequests, m: Message,
                         ch: Freenode.Chan, now: int, later: int, sweepFirst: bool, reply: Message)
    returns (panics: bool, res: Outcome)
    requires c.Valid()
    requires Freenode.Healthy(oar.m, oar.closed) && FreshChan(oar.m, oar.closed, ch)
    modifies c`badness, c`lastsent, ac, oar`m, oar`closed, oar`delivered
    ensures !panics
    ensures Freenode.Healthy(oar.m, oar.closed)
    ensures ch in oar.closed && forall n :: n in oar.m ==> oar.m[n].ch != ch
    ensures res == Crash ==> reply.command == Freenode.RPL_WHOISACCOUNT && |reply.params| < 3
  {
    ghost var m0 := oar.m;
    var cached, out, waits := CheckAdmin(c, ac, oar, m, ch, now);
    if m.prefix !in ac.m {
      Freenode.HealthyAdd(m0, oar.closed, m.prefix, ch, now);
    }
    assert Freenode.Healthy(oar.m, oar.closed) && Freenode.HeldAtMostBy(oar.m, ch, m.prefix);
    if sweepFirst {
      Freenode.HealthySweep(oar.m, oar.closed, ch, m.prefix, later);
      oar.Expire(later);
      Freenode.HealthyRelease(oar.m, oar.closed, m.prefix, ch);
      panics := ReleaseWaiter(oar, m.prefix, ch);
      Freenode.HealthyReact(ac.m, oar.m, oar.closed, reply);
      res, out, waits := Freenode.HandleFreenode(c, ac, oar, reply, later);
    } else {
      Freenode.HealthyRelease(oar.m, oar.closed, m.prefix, ch);
      panics := ReleaseWaiter(oar, m.prefix, ch);
      Freenode.HealthyReact(ac.m, oar.m, oar.closed, reply);
      res, out, waits := Freenode.HandleFreenode(c, ac, oar, reply, later);
      Freenode.HealthySweep(oar.m, oar.closed, ch, m.prefix, later);
      oar.Expire(later);
    }
  }
}
