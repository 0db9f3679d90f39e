/**
 * The serial command framing of class Leds: each state is sent as the three
 * bytes `$ code !`. The transport itself (pyserial) is not modelled; the bytes
 * a successful write puts on the line are kept in a ghost log.
 */
module Leds {
  import opened Wrappers
  import opened IssStates

  const CmdDelimBegin: byte := 0x24  // '$'
  const CmdDelimEnd: byte := 0x21    // '!'

  /** The command sendState builds for one state. */
  function Frame(s: State): (cmd: seq<byte>)
    ensures |cmd| == 3
    ensures cmd[0] == 0x24 && cmd[2] == 0x21
    ensures cmd[1] == Code(s)
  {
    [CmdDelimBegin, Code(s), CmdDelimEnd]
  }

  /** Reads one command back: the inverse of Frame. */
  function Unframe(cmd: seq<byte>): (r: Option<State>)
    ensures r.Some? ==> |cmd| == 3 && cmd == Frame(r.value)
  {
    if |cmd| == 3 && cmd[0] == CmdDelimBegin && cmd[2] == CmdDelimEnd then FromCode(cmd[1]) else None
  }

  lemma UnframeFrame(s: State)
    ensures Unframe(Frame(s)) == Some(s)
  {
  }

  /** The byte stream of a sequence of commands. */
  function Frames(states: seq<State>): (bytes: seq<byte>)
    ensures |bytes| == 3 * |states|
  {
    if states == [] then [] else Frame(states[0]) + Frames(states[1..])
  }

  /** Splits a byte stream into commands; None when it is not a whole number of valid commands. */
  function Parse(bytes: seq<byte>): (r: Option<seq<State>>)
    decreases |bytes|
  {
    if bytes == [] then Some([])
    else if |bytes| < 3 then None
    else match Unframe(bytes[..3])
      case None => None
      case Some(s) =>
        match Parse(bytes[3..])
        case None => None
        case Some(rest) => Some([s] + rest)
  }

  lemma {:induction false} FramesAppend(a: seq<State>, b: seq<State>)
    ensures Frames(a + b) == Frames(a) + Frames(b)
  {
    if a != [] {
      assert (a + b)[1..] == a[1..] + b;
      FramesAppend(a[1..], b);
    } else {
      assert a + b == b;
    }
  }

  /** The line can be decoded back into exactly the states that were sent. */
  lemma {:induction false} ParseFrames(states: seq<State>)
    ensures Parse(Frames(states)) == Some(states)
  {
    if states != [] {
      var bytes := Frames(states);
      assert bytes[..3] == Frame(states[0]);
      assert bytes[3..] == Frames(states[1..]);
      UnframeFrame(states[0]);
      ParseFrames(states[1..]);
      assert [states[0]] + states[1..] == states;
    }
  }

  /** The serial notifier. `configured` is set by setup() once the port opened. */
  class Leds {
    var configured: bool
    /** The states whose command was written successfully, oldest first. */
    ghost var sent: seq<State>

    /** What is on the serial line. */
    ghost function Wire(): seq<byte>
      reads this
    {
      Frames(sent)
    }

    constructor ()
      ensures !configured && sent == []
    {
      configured := false;
      sent := [];
    }

    /** Opening the port either succeeds (`portOpened`) or raises SerialException and leaves serial support off. */
    method Setup(portOpened: bool) returns (ok: bool)
      modifies this
      ensures configured == portOpened && ok == configured
      ensures sent == old(sent)
    {
      configured := portOpened;
      ok := configured;
    }

    /**
     * Sends one state. `writeOk` is the outcome of ser.write. Unconfigured: nothing is
     * written and no error is reported. A failed write adds nothing and reports an error.
     */
    method SendState(s: State, writeOk: bool) returns (error: bool)
      modifies this
      ensures configured == old(configured)
      ensures error <==> configured && !writeOk
      ensures sent == if configured && writeOk then old(sent) + [s] else old(sent)
      ensures Wire() == if configured && writeOk then old(Wire()) + Frame(s) else old(Wire())
    {
      error := false;
      if configured {
        var cmd: seq<byte> := [];
        cmd := cmd + [CmdDelimBegin];
        cmd := cmd + [Code(s)];
        cmd := cmd + [CmdDelimEnd];
        assert cmd == Frame(s);
        if writeOk {
          FramesAppend(sent, [s]);
          assert Frames([s]) == Frame(s);
          sent := sent + [s];
        } else {
          error := true;
        }
      }
    }
  }
}
