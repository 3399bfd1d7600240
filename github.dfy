/** The webhook side of github/github.go: which announcement lines a push,
    wiki, pull-request or issue event produces, and in which order. A
    rendered template is represented by the template's name and fields (a
    `Line`), so two lines are equal exactly when they were rendered from the
    same fields. */
module Github {
  import opened Wire
  import opened Text
  import Conn
  import Irc

  const MaxLines := 5

  datatype Commit = Commit(author: string, url: string, message: string, id: string)
  datatype Push = Push(ref: string, commits: seq<Commit>, repo: string, repoUrl: string)
  datatype Page = Page(name: string, action: string, sha: string, url: string)
  datatype Gollum = Gollum(pages: seq<Page>, sender: string)
  datatype PullRequest = PullRequest(action: string, url: string, title: string, login: string)
  datatype Issue = Issue(action: string, title: string, url: string, login: string)

  /** The templates `push`, `pushSkipped`, `wiki`, `pr` and `issues` with
      the fields each is executed with. */
  datatype Line =
    | PushLine(author: string, url: string, message: string, id: string, repo: string, repoUrl: string, branch: string)
    | PushSkipped(author: string, fromId: string, toId: string, skipCount: int, repo: string, repoUrl: string)
    | WikiLine(author: string, page: string, url: string, action: string, sha: string)
    | PrLine(author: string, title: string, url: string)
    | IssueLine(author: string, title: string, url: string)

  /** `strings.LastIndex(s, "/")`. */
  function LastSlash(s: string): (r: int)
    ensures -1 <= r < |s|
    ensures r >= 0 ==> s[r] == '/'
    ensures forall j :: r < j < |s| ==> s[j] != '/'
  {
    if |s| == 0 then -1
    else if s[|s| - 1] == '/' then |s| - 1
    else LastSlash(s[..|s| - 1])
  }

  /** The length of the first line of `s`: the position of its first
      newline, or `|s|` when it has none. */
  function LineEnd(s: string): (n: nat)
    ensures n <= |s| && NoNewline(s[..n])
    ensures n < |s| ==> s[n] == '\n'
  {
    if s == [] || s[0] == '\n' then 0
    else
      var n := LineEnd(s[1..]);
      assert s[..n + 1] == [s[0]] + s[1..][..n];
      n + 1
  }

  /** `strings.Index(s, "\n")`. */
  function FirstNewline(s: string): (r: int)
  {
    var n := LineEnd(s);
    if n < |s| then n else -1
  }

  /** The branch: what follows the last '/' of the ref. */
  function Branch(ref: string): string
  {
    ref[LastSlash(ref) + 1..]
  }

  /** The branch is the longest suffix of the ref without a '/'. */
  lemma BranchMeaning(ref: string)
    ensures |Branch(ref)| <= |ref| && ref[|ref| - |Branch(ref)|..] == Branch(ref)
    ensures forall i :: 0 <= i < |Branch(ref)| ==> Branch(ref)[i] != '/'
    ensures |Branch(ref)| < |ref| ==> ref[|ref| - |Branch(ref)| - 1] == '/'
    ensures (forall i :: 0 <= i < |ref| ==> ref[i] != '/') ==> Branch(ref) == ref
  {
    var k := LastSlash(ref);
    forall i | 0 <= i < |Branch(ref)|
      ensures Branch(ref)[i] != '/'
    {
      assert Branch(ref)[i] == ref[k + 1 + i];
    }
  }

  /** The summary of a commit message: the trimmed message, cut at its first
      newline and trimmed again. */
  function FirstLine(msg: string): string
  {
    var t := TrimSpace(msg);
    var pos := FirstNewline(t);
    if pos > 0 then TrimSpace(t[..pos]) else t
  }

  lemma SliceNoNewline(s: string, i: int, j: int)
    requires 0 <= i <= j <= |s| && NoNewline(s)
    ensures NoNewline(s[i..j])
  {
    forall k | 0 <= k < j - i
      ensures s[i..j][k] != '\n'
    {
      assert s[i..j][k] == s[i + k];
    }
  }

  lemma TrimNoNewline(s: string)
    requires NoNewline(s)
    ensures NoNewline(TrimSpace(s))
  {
    TrimSpaceSlice(s);
    var i, j :| 0 <= i <= j <= |s| && TrimSpace(s) == s[i..j];
    SliceNoNewline(s, i, j);
  }

  /** The summary holds no newline, and a message that is a single trimmed
      line is its own summary. */
  lemma FirstLineMeaning(msg: string)
    ensures NoNewline(FirstLine(msg))
    ensures NoNewline(msg) && TrimSpace(msg) == msg ==> FirstLine(msg) == msg
  {
    var t := TrimSpace(msg);
    var pos := FirstNewline(t);
    if pos > 0 {
      TrimNoNewline(t[..pos]);
    } else {
      TrimSpaceSlice(msg);
      assert t[..|t|] == t;
    }
  }

  /** The `push` line for commit `k`. */
  function PushItem(p: Push, k: nat): (l: Line)
    requires k < |p.commits|
    ensures l.PushLine? && l.author == p.commits[k].author && l.id == p.commits[k].id
    ensures l.message == FirstLine(p.commits[k].message) && l.branch == Branch(p.ref)
  {
    var c := p.commits[k];
    PushLine(c.author, c.url, FirstLine(c.message), c.id, p.repo, p.repoUrl, Branch(p.ref))
  }

  /** The `pushSkipped` line of a push with more commits than fit. */
  function SkippedItem(p: Push): (l: Line)
    requires |p.commits| > MaxLines
    ensures l.PushSkipped?
    ensures l.skipCount == |p.commits| - 4 && l.fromId == p.commits[0].id
    ensures l.toId == p.commits[|p.commits| - MaxLines].id && l.author == p.commits[|p.commits| - MaxLines].author
  {
    var v := p.commits[|p.commits| - MaxLines];
    PushSkipped(v.author, p.commits[0].id, v.id, |p.commits| - 4, p.repo, p.repoUrl)
  }

  /** Which line a commit produces: the `pushSkipped` line or the `push`
      line of commit `k`. */
  datatype Slot = SkipSlot | CommitSlot(k: nat)

  /** What commit `k` of `n` contributes: the skipped line at position
      n - 5 of a long push, its own line after that or in a short push,
      nothing before. */
  function SlotOf(n: nat, k: nat): seq<Slot>
  {
    var needSkip := n > MaxLines;
    if needSkip && k == n - MaxLines then [SkipSlot]
    else if !needSkip || k > n - MaxLines then [CommitSlot(k)]
    else []
  }

  /** The lines produced by the first `k` of `n` commits. */
  function Slots(n: nat, k: nat): seq<Slot>
  {
    if k == 0 then [] else Slots(n, k - 1) + SlotOf(n, k - 1)
  }

  predicate SlotOk(p: Push, s: Slot)
  {
    match s
    case SkipSlot => |p.commits| > MaxLines
    case CommitSlot(k) => k < |p.commits|
  }

  function Render(p: Push, s: Slot): Line
    requires SlotOk(p, s)
  {
    match s
    case SkipSlot => SkippedItem(p)
    case CommitSlot(k) => PushItem(p, k)
  }

  /** The loop of `pushHandler`: the line of every slot, in order. */
  method PushHandler(p: Push) returns (lines: seq<Line>)
    ensures |lines| == |Slots(|p.commits|, |p.commits|)|
    ensures forall i :: 0 <= i < |lines| ==>
              SlotOk(p, Slots(|p.commits|, |p.commits|)[i]) && lines[i] == Render(p, Slots(|p.commits|, |p.commits|)[i])
  {
    var n := |p.commits|;
    lines := [];
    for k := 0 to n
      invariant |lines| == |Slots(n, k)|
      invariant forall i :: 0 <= i < |lines| ==> SlotOk(p, Slots(n, k)[i]) && lines[i] == Render(p, Slots(n, k)[i])
    {
      var line := CommitLine(p, k);
      assert Slots(n, k + 1) == Slots(n, k) + SlotOf(n, k);
      if line.Some? {
        lines := lines + [line.value];
      }
    }
  }

  /** One pass of the loop of `pushHandler`: the line commit `k` adds, if
      any. */
  method CommitLine(p: Push, k: nat) returns (line: Option<Line>)
    requires k < |p.commits|
    ensures line.None? <==> SlotOf(|p.commits|, k) == []
    ensures line.Some? ==>
              |SlotOf(|p.commits|, k)| == 1 && SlotOk(p, SlotOf(|p.commits|, k)[0])
              && line.value == Render(p, SlotOf(|p.commits|, k)[0])
  {
    var n := |p.commits|;
    var needSkip := n > MaxLines;
    if needSkip && k == n - MaxLines {
      line := Some(SkippedItem(p));
    } else if !needSkip || k > n - MaxLines {
      line := Some(PushItem(p, k));
    } else {
      line := None;
    }
  }

  /** In a short push every commit has its own slot, in order. */
  lemma {:induction false} SlotsShort(n: nat, k: nat)
    requires k <= n <= MaxLines
    ensures |Slots(n, k)| == k
    ensures forall j :: 0 <= j < k ==> Slots(n, k)[j] == CommitSlot(j)
  {
    if k > 0 {
      SlotsShort(n, k - 1);
    }
  }

  /** After the first `k` commits of a long push, nothing has been produced
      before commit n - 5, then the skipped slot, then one slot per
      commit. */
  lemma {:induction false} SlotsLong(n: nat, k: nat)
    requires MaxLines < n && k <= n
    ensures k <= n - MaxLines ==> Slots(n, k) == []
    ensures k > n - MaxLines ==>
              |Slots(n, k)| == k - (n - MaxLines) && Slots(n, k)[0] == SkipSlot
              && forall j :: 0 < j < |Slots(n, k)| ==> Slots(n, k)[j] == CommitSlot(n - MaxLines + j)
  {
    if k > 0 {
      SlotsLong(n, k - 1);
    }
  }

  /** The lines of a push: one per commit, in order, when they fit; else the
      skipped line standing for the first n - 4 commits, then the last
      four. */
  lemma PushLines(n: nat)
    ensures n <= MaxLines ==>
              |Slots(n, n)| == n && forall k :: 0 <= k < n ==> Slots(n, n)[k] == CommitSlot(k)
    ensures n > MaxLines ==>
              |Slots(n, n)| == MaxLines && Slots(n, n)[0] == SkipSlot
              && forall i :: 1 <= i < MaxLines ==> Slots(n, n)[i] == CommitSlot(n - MaxLines + i)
  {
    if n <= MaxLines {
      SlotsShort(n, n);
    } else {
      SlotsLong(n, n);
    }
  }

  /** The `wiki` line of one page. */
  function WikiItem(sender: string, pg: Page): Line
  {
    WikiLine(sender, pg.name, pg.url, pg.action, pg.sha)
  }

  /** `wikiHandler`: a line per page, of which only the last five are
      kept, in order. */
  method WikiHandler(g: Gollum) returns (lines: seq<Line>)
    ensures |lines| == if |g.pages| > MaxLines then MaxLines else |g.pages|
    ensures forall i :: 0 <= i < |lines| ==> lines[i] == WikiItem(g.sender, g.pages[|g.pages| - |lines| + i])
  {
    lines := [];
    for k := 0 to |g.pages|
      invariant |lines| == k
      invariant forall j :: 0 <= j < k ==> lines[j] == WikiItem(g.sender, g.pages[j])
    {
      lines := lines + [WikiItem(g.sender, g.pages[k])];
    }
    var l := |lines|;
    if l > MaxLines {
      ghost var all := lines;
      lines := lines[l - MaxLines..];
      assert forall i :: 0 <= i < |lines| ==> lines[i] == all[l - MaxLines + i];
    }
  }

  /** `prHandler` after decoding: one line for an opened pull request. */
  function PrLines(pr: PullRequest): (r: seq<Line>)
    ensures |r| <= 1 && (r != [] <==> pr.action == "opened")
    ensures r != [] ==> r[0] == PrLine(pr.login, pr.title, pr.url)
  {
    if pr.action != "opened" then [] else [PrLine(pr.login, pr.title, pr.url)]
  }

  /** `issueHandler` after decoding: one line for an opened issue. */
  function IssueLines(i: Issue): (r: seq<Line>)
    ensures |r| <= 1 && (r != [] <==> i.action == "opened")
    ensures r != [] ==> r[0] == IssueLine(i.login, i.title, i.url)
  {
    if i.action != "opened" then [] else [IssueLine(i.login, i.title, i.url)]
  }

  /** The text of each line, as `render` executes its template. */
  function Rendered(render: Line -> string, lines: seq<Line>): (texts: seq<string>)
    ensures |texts| == |lines|
    ensures forall i :: 0 <= i < |lines| ==> texts[i] == render(lines[i])
  {
    if lines == [] then [] else [render(lines[0])] + Rendered(render, lines[1..])
  }

  /** The closing loop of each event handler: every text is written to the
      channel with `WriteLine`, in order, at the instant `now`; `sent` are
      the PRIVMSGs written and `waits` the wait each one asks for. */
  method Announce(c: Irc.IConn, texts: seq<string>, now: int) returns (sent: seq<Message>, waits: seq<int>)
    requires c.Valid()
    modifies c`badness, c`lastsent
    ensures c.Valid()
    ensures sent == Irc.ChannelLines(c.channel, texts)
    ensures Conn.Charges(c.Flood(), waits) == Conn.ChargeLines(old(c.Flood()), sent, now)
  {
    ghost var b0 := c.Flood();
    sent, waits := [], [];
    for k := 0 to |texts|
      invariant c.Valid()
      invariant sent == Irc.ChannelLines(c.channel, texts[..k])
      invariant Conn.Charges(c.Flood(), waits) == Conn.ChargeLines(b0, sent, now)
    {
      ghost var before := c.Flood();
      var w, m := c.WriteLine(texts[k], now);
      Conn.ChargeLinesJoin(b0, sent, [m], now);
      assert Conn.ChargeLines(before, [m], now) == Conn.Charges(c.Flood(), [w]);
      assert texts[..k + 1] == texts[..k] + [texts[k]];
      assert Irc.ChannelLines(c.channel, texts[..k + 1]) == sent + [m];
      sent, waits := sent + [m], waits + [w];
    }
    assert texts[..|texts|] == texts;
  }

  /** What the event's handler announces: nothing for an unknown event or
      an undecodable payload; for a push the slot-wise lines; for a wiki
      event the line of each of the last min(n, 5) pages, in order; for a
      pull request or an issue its one line when it was opened. */
  ghost predicate EventLinesOk(event: string, push: Option<Push>, wiki: Option<Gollum>,
                               pr: Option<PullRequest>, issue: Option<Issue>, lines: seq<Line>)
  {
    && |lines| <= MaxLines
    && (event !in {"push", "gollum", "pull_request", "issues"} ==> lines == [])
    && (event == "push" && push.None? ==> lines == [])
    && (event == "push" && push.Some? ==>
          var slots := Slots(|push.value.commits|, |push.value.commits|);
          |lines| == |slots| && forall i :: 0 <= i < |lines| ==>
            SlotOk(push.value, slots[i]) && lines[i] == Render(push.value, slots[i]))
    && (event == "gollum" ==> (lines == [] <==> wiki.None? || wiki.value.pages == []))
    && (event == "gollum" && wiki.Some? ==>
          |lines| == (if |wiki.value.pages| > MaxLines then MaxLines else |wiki.value.pages|)
          && forall i :: 0 <= i < |lines| ==>
            lines[i] == WikiItem(wiki.value.sender, wiki.value.pages[|wiki.value.pages| - |lines| + i]))
    && (event == "pull_request" ==> lines == if pr.None? then [] else PrLines(pr.value))
    && (event == "issues" ==> lines == if issue.None? then [] else IssueLines(issue.value))
  }

  /** `handler`: the event header picks the payload; each `Option` is the
      outcome of decoding the payload as that event's type (`None` for a
      decoding error). `lines` are the lines the event produces
      (`EventLines`); each is rendered by `render` and written to the
      channel on `c` at the instant `now`, as `sent`, with the waits the
      flood control asks for. */
  method Handler(c: Irc.IConn, render: Line -> string, now: int,
                 event: string, push: Option<Push>, wiki: Option<Gollum>,
                 pr: Option<PullRequest>, issue: Option<Issue>)
    returns (lines: seq<Line>, sent: seq<Message>, waits: seq<int>)
    requires c.Valid()
    modifies c`badness, c`lastsent
    ensures c.Valid()
    ensures EventLinesOk(event, push, wiki, pr, issue, lines) && |sent| == |lines|
    ensures sent == Irc.ChannelLines(c.channel, Rendered(render, lines))
    ensures Conn.Charges(c.Flood(), waits) == Conn.ChargeLines(old(c.Flood()), sent, now)
  {
    lines := EventLines(event, push, wiki, pr, issue);
    var texts := Rendered(render, lines);
    sent, waits := Announce(c, texts, now);
  }

  /** The lines of one event, chosen as the event's handler chooses them:
      nothing for an unknown event or an undecodable payload, at most five
      lines otherwise. */
  method EventLines(event: string, push: Option<Push>, wiki: Option<Gollum>,
                    pr: Option<PullRequest>, issue: Option<Issue>)
    returns (lines: seq<Line>)
    ensures EventLinesOk(event, push, wiki, pr, issue, lines)
  {
    lines := [];
    if event == "push" {
      if push.Some? {
        lines := PushHandler(push.value);
        PushLines(|push.value.commits|);
      }
    } else if event == "gollum" {
      if wiki.Some? {
        lines := WikiHandler(wiki.value);
      }
    } else if event == "pull_request" {
      if pr.Some? {
        lines := PrLines(pr.value);
      }
    } else if event == "issues" {
      if issue.Some? {
        lines := IssueLines(issue.value);
      }
    }
  }
}
