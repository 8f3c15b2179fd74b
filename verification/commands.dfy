/**
 * The command vocabulary shared by every component of the control plane:
 * wire-stable integer command codes, their printable names, the message
 * envelopes and the one-shot reply slot that stands for a reply channel.
 */
module Commands {
  import opened Wrappers

  // Command codes, numbered from zero in declaration order.
  const CMD_UNKNOWN := 0
  const CMD_OK := 1
  const CMD_NO_COMMAND := 2
  const CMD_LAUNCH_RUN := 3
  const CMD_CANCEL_CURRENT_RUN := 4
  const CMD_CANCEL_RUNPLAN := 5
  const CMD_NEW_BUILD := 6
  const CMD_GET_RUN_STATUS := 7
  const CMD_GET_RUNPLAN_STATUS := 8
  const CMD_GET_ALL_RUNPLAN_STATUS := 9
  const CMD_ERR_TIMEOUT := 10
  const CMD_ERR_UNKNOWN := 11

  const LOOP_WAIT_TIMER := 500
  const COMMAND_QUEUE_SIZE := 100

  /**
   * The identifier each code is declared under, without its `CMD_` prefix:
   * the reference the rendering below is compared with.
   */
  const DeclaredNames: seq<string> := [
    "UNKNOWN", "OK", "NO_COMMAND", "LAUNCH_RUN", "CANCEL_CURRENT_RUN",
    "CANCEL_RUNPLAN", "NEW_BUILD", "GET_RUN_STATUS", "GET_RUNPLAN_STATUS",
    "GET_ALL_RUNPLAN_STATUS", "ERR_TIMEOUT", "ERR_UNKNOWN"]

  /** True for the nine codes the rendering names explicitly. */
  predicate IsNamedCommand(cmd: int) {
    CMD_OK <= cmd <= CMD_GET_ALL_RUNPLAN_STATUS
  }

  /**
   * Printable name of a command code. Every code outside OK..GET_ALL_RUNPLAN_STATUS
   * (including UNKNOWN and both error codes) renders as "UNKNOWN", and
   * CANCEL_RUNPLAN renders under the name of CANCEL_CURRENT_RUN.
   */
  function CmdName(cmd: int): (name: string)
    ensures name == "UNKNOWN" <==> !IsNamedCommand(cmd)
    ensures IsNamedCommand(cmd) && cmd != CMD_CANCEL_RUNPLAN ==> name == DeclaredNames[cmd]
    ensures cmd == CMD_CANCEL_RUNPLAN ==> name == DeclaredNames[CMD_CANCEL_CURRENT_RUN]
  {
    match cmd
    case 1 => "OK"
    case 2 => "NO_COMMAND"
    case 3 => "LAUNCH_RUN"
    case 4 => "CANCEL_CURRENT_RUN"
    case 5 => "CANCEL_CURRENT_RUN"
    case 6 => "NEW_BUILD"
    case 7 => "GET_RUN_STATUS"
    case 8 => "GET_RUNPLAN_STATUS"
    case 9 => "GET_ALL_RUNPLAN_STATUS"
    case _ => "UNKNOWN"
  }

  /**
   * The rendering is not injective: apart from the codes that all render as
   * "UNKNOWN", the only two codes sharing a name are the two cancel commands.
   */
  lemma CmdNameCollisions(a: int, b: int)
    requires a != b && CmdName(a) == CmdName(b)
    ensures (!IsNamedCommand(a) && !IsNamedCommand(b))
         || {a, b} == {CMD_CANCEL_CURRENT_RUN, CMD_CANCEL_RUNPLAN}
  {
    if IsNamedCommand(a) && IsNamedCommand(b) {
      var na := if a == CMD_CANCEL_RUNPLAN then CMD_CANCEL_CURRENT_RUN else a;
      var nb := if b == CMD_CANCEL_RUNPLAN then CMD_CANCEL_CURRENT_RUN else b;
      assert DeclaredNames[na] == DeclaredNames[nb];
      assert na == nb;
    }
  }

  /**
   * One element of a message's `Data`: Go's `interface{}` restricted to the
   * dynamic types the core puts there. `IdV` carries a `RunId`, which is a
   * distinct Go type from `int` for type assertions.
   */
  datatype Value = Nil | IntV(i: int) | StrV(s: string) | IdV(id: int)

  /** A wire message: a command code and positional data. */
  datatype CommandInfo = CommandInfo(command: int, data: seq<Value>)

  /**
   * The one-shot reply slot of an internal request: written at most once by
   * whoever handles the request.
   */
  class ReplySlot {
    var reply: Option<CommandInfo>

    constructor ()
      ensures reply == None
    {
      reply := None;
    }

    /** Writing a second time is not allowed: the slot must still be empty. */
    method Send(m: CommandInfo)
      requires reply == None
      modifies this
      ensures reply == Some(m)
    {
      reply := Some(m);
    }
  }

  /** An internal request: a command, its data, and the slot its reply goes to. */
  datatype InternalCommandInfo = InternalCommandInfo(command: int, chnReturn: ReplySlot, data: seq<Value>)

  function GetMessageInfo(cmd: int, data: seq<Value>): (m: CommandInfo)
    ensures m.command == cmd && m.data == data
  {
    CommandInfo(cmd, data)
  }

  function GetInternalMessageInfo(cmd: int, chnRet: ReplySlot, data: seq<Value>): (m: InternalCommandInfo)
    ensures m.command == cmd && m.chnReturn == chnRet && m.data == data
  {
    InternalCommandInfo(cmd, chnRet, data)
  }

  /** Dropping the reply slot of an internal request leaves its wire message. */
  function Stripped(m: InternalCommandInfo): (c: CommandInfo)
    ensures c.command == m.command && c.data == m.data
  {
    CommandInfo(m.command, m.data)
  }
}
