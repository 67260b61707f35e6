/** `readLine` of core/aws-lsp-core/src/credentials/encryption.ts: read a line byte by byte, however the
    input is cut into pieces. */
module LineReader {
  import opened Wrappers

  type Byte = b: int | 0 <= b < 256

  const NEWLINE: Byte := 10

  /** Every byte is decoded by itself, so only ASCII survives. */
  function DecodeByte(b: Byte): char {
    if b < 128 then b as char else '\U{fffd}'
  }

  function Decode(bytes: seq<Byte>): string {
    seq(|bytes|, i requires 0 <= i < |bytes| => DecodeByte(bytes[i]))
  }

  /** The bytes through the first newline, or all of them if there is none. */
  function Line(bytes: seq<Byte>): (line: seq<Byte>)
    ensures line <= bytes
    ensures NEWLINE in bytes ==> line != [] && line[|line| - 1] == NEWLINE && NEWLINE !in line[..|line| - 1]
    ensures NEWLINE !in bytes ==> line == bytes
  {
    if bytes == [] then []
    else if bytes[0] == NEWLINE then bytes[..1]
    else [bytes[0]] + Line(bytes[1..])
  }

  /** Once there is a newline, later bytes do not change the line. */
  lemma {:induction false} LineIsSettled(bytes: seq<Byte>, more: seq<Byte>)
    requires NEWLINE in bytes
    ensures Line(bytes + more) == Line(bytes)
  {
    if bytes[0] != NEWLINE {
      assert (bytes + more)[1..] == bytes[1..] + more;
      LineIsSettled(bytes[1..], more);
    }
  }

  /** The line ends at the first newline. */
  lemma {:induction false} LineEnds(before: seq<Byte>, more: seq<Byte>)
    requires NEWLINE !in before
    ensures Line(before + [NEWLINE] + more) == before + [NEWLINE]
  {
    var all := before + [NEWLINE] + more;
    if before != [] {
      assert all[0] == before[0] != NEWLINE;
      assert all[1..] == before[1..] + [NEWLINE] + more;
      LineEnds(before[1..], more);
    }
  }

  lemma DecodeOneMore(bytes: seq<Byte>, b: Byte)
    ensures Decode(bytes + [b]) == Decode(bytes) + [DecodeByte(b)]
    ensures DecodeByte(b) == '\n' <==> b == NEWLINE
  {
  }

  /** The text has the codes of the bytes exactly when all of them are ASCII. */
  lemma DecodeFaithfulIff(bytes: seq<Byte>)
    ensures |Decode(bytes)| == |bytes|
    ensures (forall i | 0 <= i < |bytes| :: Decode(bytes)[i] as int == bytes[i]) <==>
      (forall i | 0 <= i < |bytes| :: bytes[i] < 128)
  {
    forall i | 0 <= i < |bytes| ensures Decode(bytes)[i] as int == bytes[i] <==> bytes[i] < 128 {
      assert Decode(bytes)[i] == DecodeByte(bytes[i]);
    }
  }

  /** The stream's buffer and the reader's variables; the listener is on until the promise resolves. */
  class Reader {
    var buffer: seq<Byte>
    var contents: string
    var resolved: Option<string>
    ghost var consumed: seq<Byte>

    ghost function Arrived(): seq<Byte>
      reads this
    {
      consumed + buffer
    }

    /** What was read is the first line of what has arrived, as far as it has arrived. */
    ghost predicate Valid()
      reads this
    {
      && contents == Decode(consumed)
      && (resolved.None? ==> NEWLINE !in consumed)
      && (resolved.Some? ==>
            resolved.value == contents && NEWLINE in consumed && consumed == Line(Arrived()))
    }

    constructor ()
      ensures Valid() && Arrived() == [] && resolved.None?
    {
      buffer, contents, resolved, consumed := [], "", None, [];
    }

    method Arrive(bytes: seq<Byte>)
      requires Valid()
      modifies this`buffer
      ensures Valid() && Arrived() == old(Arrived()) + bytes
    {
      if resolved.Some? {
        LineIsSettled(Arrived(), bytes);
      }
      hide Line, Decode;
      buffer := buffer + bytes;
      assert Arrived() == old(Arrived()) + bytes;
    }

    /** After a 'readable' event: a complete line is resolved and exactly its bytes are consumed, and
        without one everything is consumed and nothing resolved. */
    method OnReadable()
      requires Valid()
      modifies this
      ensures Valid() && Arrived() == old(Arrived())
      ensures old(resolved.Some?) ==> resolved == old(resolved) && buffer == old(buffer)
      ensures if NEWLINE in Arrived()
        then resolved == Some(Decode(Line(Arrived()))) && Arrived() == Line(Arrived()) + buffer
        else resolved.None? && buffer == [] && contents == Decode(Arrived())
    {
      if resolved.Some? {
        return;
      }
      hide Line, Decode, DecodeByte;
      while buffer != []
        invariant Valid() && Arrived() == old(Arrived()) && resolved.None?
        decreases |buffer|
      {
        var b := buffer[0];
        var nextChar := DecodeByte(b);
        DecodeOneMore(consumed, b);
        assert consumed + [b] + buffer[1..] == Arrived();
        if b == NEWLINE {
          LineEnds(consumed, buffer[1..]);
        }
        contents := contents + [nextChar];
        consumed := consumed + [b];
        buffer := buffer[1..];
        if nextChar == '\n' {
          resolved := Some(contents);
          break;
        }
      }
      assert resolved.None? ==> consumed == Arrived();
    }
  }
}
