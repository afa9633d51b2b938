/**
 * The private channel between the app and the update worker: JSON messages, one
 * per line, with a bounded buffer and at most four unread messages.
 */
module UpdateChannel {
  import opened Values
  import opened TextRecords

  const NEWLINE: char := '\n'

  const SIZE_LIMIT: nat := 512 * 1024

  const UNREAD_LIMIT: nat := 4

  // ---------------------------------------------------------------- parsed messages

  predicate Parses<T>(parse: string -> Option<T>, lines: seq<string>) {
    forall line | line in lines :: parse(line).Some?
  }

  function Parsed<T>(parse: string -> Option<T>, lines: seq<string>): (r: seq<T>)
    requires Parses(parse, lines)
    ensures |r| == |lines| && forall i | 0 <= i < |r| :: Some(r[i]) == parse(lines[i])
  {
    seq(|lines|, i requires 0 <= i < |lines| => parse(lines[i]).value)
  }

  lemma ParsedBoth<T>(parse: string -> Option<T>, a: seq<string>, b: seq<string>)
    requires Parses(parse, a) && Parses(parse, b)
    ensures Parses(parse, a + b) && Parsed(parse, a + b) == Parsed(parse, a) + Parsed(parse, b)
  {
    var ab := Parsed(parse, a + b);
    var both := Parsed(parse, a) + Parsed(parse, b);
    forall i | 0 <= i < |ab|
      ensures ab[i] == both[i]
    {
      assert Some(ab[i]) == parse((a + b)[i]) == Some(both[i]);
    }
  }

  lemma NextOf(all: seq<string>, n: nat, line: string, rest: seq<string>)
    requires n <= |all| && all[n..] == [line] + rest
    ensures n < |all| && all[n] == line && all[n + 1..] == rest && all[..n + 1] == all[..n] + [line]
  {
    assert all[n..][0] == line && all[n..][1..] == rest;
  }

  lemma Regroup3(a: seq<string>, b: seq<string>, x: string)
    ensures (a + b) + [x] == a + (b + [x])
  {
  }

  lemma StoppedAt(start: seq<string>, all: seq<string>, n: nat)
    requires n < |all|
    ensures start + all[..n] <= start + all && all[n] in all
  {
  }

  class NpmUpdateChannel<T> {
    const parse: string -> Option<T>
    /** The length of a text in UTF-8. */
    const byteLength: string -> nat
    var buffer: string
    var messages: seq<T>
    var waiting: bool
    var failed: bool
    /** All text received, the lines taken from it and all messages handed to readers. */
    ghost var received: string
    ghost var lines: seq<string>
    ghost var delivered: seq<T>

    /** The lines taken are those received, in order: all of them while the channel is whole. */
    ghost predicate Valid()
      reads this
    {
      && (waiting ==> messages == [] && !failed)
      && |messages| <= UNREAD_LIMIT
      && Parses(parse, lines) && delivered + messages == Parsed(parse, lines)
      && lines <= Records(received, NEWLINE)
      && (!failed ==> lines == Records(received, NEWLINE) && buffer == Residue(received, NEWLINE))
    }

    constructor (parse: string -> Option<T>, byteLength: string -> nat)
      ensures Valid() && received == "" && delivered == [] && !failed && !waiting
      ensures this.parse == parse && this.byteLength == byteLength
    {
      this.parse, this.byteLength := parse, byteLength;
      buffer, messages, waiting, failed := "", [], false, false;
      received, lines, delivered := "", [], [];
    }

    /** The first failure stays; a waiting reader is rejected. */
    method Fail()
      modifies this`failed, this`waiting
      ensures failed && !waiting
    {
      failed := true;
      waiting := false;
    }

    /** Hands a message to the waiting reader, or queues it; false when the queue is full. */
    method Take(message: T) returns (ok: bool)
      requires |messages| <= UNREAD_LIMIT && (waiting ==> messages == [])
      modifies this`messages, this`waiting, this`delivered
      ensures ok == (old(waiting) || |old(messages)| < UNREAD_LIMIT)
      ensures ok ==> delivered + messages == old(delivered) + old(messages) + [message]
      ensures !ok ==> delivered == old(delivered) && messages == old(messages)
      ensures !waiting && |messages| <= UNREAD_LIMIT
      ensures |messages| == if ok && !old(waiting) then |old(messages)| + 1 else |old(messages)|
    {
      if waiting {
        waiting := false;
        delivered := delivered + [message];
        return true;
      }
      if |messages| == UNREAD_LIMIT { return false; }
      messages := messages + [message];
      return true;
    }

    /** How many more messages fit. */
    function Room(): nat
      requires |messages| <= UNREAD_LIMIT
      reads this`messages, this`waiting
    {
      UNREAD_LIMIT - |messages| + if waiting then 1 else 0
    }

    /** A whole channel emits no data once it is destroyed, so this is never called on a failed one. */
    method OnData(bytes: string)
      requires Valid() && !failed
      modifies this
      ensures Valid()
      ensures failed <==> byteLength(old(buffer) + bytes) > SIZE_LIMIT || Overflows(old(buffer) + bytes, old(Room()))
      ensures received == old(received) + bytes && old(lines) <= lines
    {
      ghost var start := received;
      ReadOn(start, bytes, NEWLINE);
      buffer := buffer + bytes;
      received := received + bytes;
      if byteLength(buffer) > SIZE_LIMIT {
        Fail();
        return;
      }
      TakeLines();
    }

    /** Some complete line is no message, or there are more than fit. */
    ghost predicate Overflows(text: string, room: nat) {
      |Records(text, NEWLINE)| > room || !Parses(parse, Records(text, NEWLINE))
    }

    /** The queue is in order, and holds or has handed out the messages of the lines taken. */
    ghost predicate Orderly()
      reads this
    {
      && |messages| <= UNREAD_LIMIT && (waiting ==> messages == [] && !failed)
      && Parses(parse, lines) && delivered + messages == Parsed(parse, lines)
    }

    /** Takes the first line out of the buffer; a bad message or a full queue fails the channel. */
    method TakeLine(index: nat) returns (ok: bool)
      requires !failed && Orderly() && index < |buffer|
      modifies this`buffer, this`messages, this`waiting, this`failed, this`lines, this`delivered
      ensures Orderly() && failed == !ok
      ensures ok <==> parse(old(buffer)[..index]).Some? && old(Room()) > 0
      ensures ok ==>
                && lines == old(lines) + [old(buffer)[..index]] && buffer == old(buffer)[index + 1..]
                && Room() + 1 == old(Room())
      ensures !ok ==> lines == old(lines)
    {
      ghost var line := buffer[..index];
      var message := parse(buffer[..index]);
      if message.None? {
        Fail();
        return false;
      }
      buffer := buffer[index + 1..];
      ok := Take(message.value);
      if !ok {
        Fail();
        return;
      }
      ParsedBoth(parse, lines, [line]);
      lines := lines + [line];
    }

    /** Takes every complete line out of the buffer. */
    method TakeLines()
      requires !failed && Orderly()
      requires lines + Records(buffer, NEWLINE) == Records(received, NEWLINE)
               && Residue(buffer, NEWLINE) == Residue(received, NEWLINE)
      modifies this`buffer, this`messages, this`waiting, this`failed, this`lines, this`delivered
      ensures Valid() && old(lines) <= lines
      ensures failed <==> Overflows(old(buffer), old(Room()))
    {
      ghost var start, all, room := lines, Records(buffer, NEWLINE), Room();
      ghost var n := 0;
      var index := IndexOf(buffer, NEWLINE);
      while index < |buffer|
        invariant !failed && Orderly() && index == IndexOf(buffer, NEWLINE)
        invariant n <= |all| && all[n..] == Records(buffer, NEWLINE) && lines == start + all[..n] && Room() + n == room
        invariant Parses(parse, all[..n])
        invariant Residue(buffer, NEWLINE) == Residue(received, NEWLINE)
        decreases |buffer|
      {
        ghost var rest := buffer[index + 1..];
        FirstOfRecords(buffer, NEWLINE, index, rest);
        NextOf(all, n, buffer[..index], Records(rest, NEWLINE));
        var ok := TakeLine(index);
        if !ok {
          StoppedAt(start, all, n);
          return;
        }
        Regroup3(start, all[..n], all[n]);
        n := n + 1;
        index := IndexOf(buffer, NEWLINE);
      }
      assert Records(buffer, NEWLINE) == [] && Residue(buffer, NEWLINE) == buffer;
      assert all[..n] == all;
    }

    /** The next message: queued, or to be waited for; a second waiting reader is refused. */
    method Next() returns (answer: Reading<T>)
      requires Valid()
      modifies this`messages, this`waiting, this`delivered
      ensures Valid()
      ensures match answer
              case Message(m) => old(messages) != [] && m == old(messages)[0] && delivered == old(delivered) + [m]
                                 && waiting == old(waiting)
              case Wait => old(messages) == [] && !failed && !old(waiting) && waiting && delivered == old(delivered)
              case Rejected => old(messages) == [] && (failed || old(waiting))
                               && messages == old(messages) && delivered == old(delivered) && waiting == old(waiting)
    {
      if |messages| > 0 {
        var message := messages[0];
        messages := messages[1..];
        delivered := delivered + [message];
        return Message(message);
      }
      if failed || waiting { return Rejected; }
      waiting := true;
      return Wait;
    }
  }

  datatype Reading<+T> = Message(message: T) | Wait | Rejected

  /**
   * However the bytes were cut: once all text of some frames is in and the channel is still
   * whole, it has yielded exactly those frames, in order, and its buffer is empty.
   */
  lemma WholeChannelYieldsTheFrames<T>(channel: NpmUpdateChannel<T>, frames: seq<string>)
    requires channel.Valid() && !channel.failed && channel.received == Print(frames, NEWLINE)
    requires forall frame | frame in frames :: NEWLINE !in frame
    ensures Parses(channel.parse, frames)
    ensures channel.delivered + channel.messages == Parsed(channel.parse, frames) && channel.buffer == ""
  {
    FramesComeBack(frames, NEWLINE);
  }

  /** The residual buffer of a whole channel holds no newline. */
  lemma BufferHoldsNoNewline<T>(channel: NpmUpdateChannel<T>)
    requires channel.Valid() && !channel.failed
    ensures NEWLINE !in channel.buffer
  {
    NoSeparatorInside(channel.received, NEWLINE);
  }

  /** A failed channel has yielded a prefix of the frames and nothing else. */
  lemma FailedChannelYieldsAPrefix<T>(channel: NpmUpdateChannel<T>, frames: seq<string>, sent: string)
    requires channel.Valid() && channel.received + sent == Print(frames, NEWLINE)
    requires forall frame | frame in frames :: NEWLINE !in frame
    ensures channel.lines <= frames && Parses(channel.parse, channel.lines)
    ensures channel.delivered + channel.messages == Parsed(channel.parse, channel.lines)
  {
    FramesComeBack(frames, NEWLINE);
    ReadOn(channel.received, sent, NEWLINE);
  }
}
