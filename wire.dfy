/** Protocol messages as the bot receives and builds them. */
module Wire {

  datatype Option<+T> = None | Some(value: T)

  /** One protocol line. `prefix` is the sender's name (the nick or server
      before the first '!'), empty when the line carries no prefix. */
  datatype Message = Message(prefix: string, command: string, params: seq<string>, trailing: string)

  /** What a handler of the main package reports for one inbound line:
      it declined it, it consumed it, or the Go code would panic on it. */
  datatype Outcome = Declined | Consumed | Crash

  const PING := "PING"
  const PONG := "PONG"
  const NICK := "NICK"
  const USER := "USER"
  const PASS := "PASS"
  const JOIN := "JOIN"
  const PART := "PART"
  const QUIT := "QUIT"
  const MODE := "MODE"
  const PRIVMSG := "PRIVMSG"
  const NOTICE := "NOTICE"
  const WHOIS := "WHOIS"
  const RPL_WELCOME := "001"
  const ERR_NICKNAMEINUSE := "433"

  /** An outbound message: the bot never sets a prefix on what it sends. */
  function Out(command: string, params: seq<string>, trailing: string): (m: Message)
    ensures m.prefix == "" && m.command == command && m.params == params && m.trailing == trailing
  {
    Message("", command, params, trailing)
  }

  /** `strings.Join(args, "")`. */
  function Concat(args: seq<string>): (r: string)
    ensures |r| == SumLen(args)
  {
    if args == [] then "" else args[0] + Concat(args[1..])
  }

  function SumLen(args: seq<string>): nat
  {
    if args == [] then 0 else |args[0]| + SumLen(args[1..])
  }

  /** Length of the wire form `:prefix COMMAND p1 p2 :trailing`, without the
      line terminator, as the protocol library counts it: the prefix with its
      colon and space, one space before each parameter, and the trailing part
      with its space and colon when it is not empty. */
  function WireLen(m: Message): (n: nat)
    ensures n >= |m.command| + |m.trailing|
  {
    (if m.prefix == "" then 0 else |m.prefix| + 2)
    + |m.command|
    + |m.params| + SumLen(m.params)
    + (if m.trailing == "" then 0 else |m.trailing| + 2)
  }

  /** The decimal digit character for 0..9, as `%d` formats it. */
  function DigitChar(d: nat): (c: char)
    requires d < 10
    ensures '0' <= c <= '9'
    ensures c as int - '0' as int == d
  {
    ('0' as int + d) as char
  }
}
