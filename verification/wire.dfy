/**
 * The framing of vsg-core's TCP protocol: every message, in both directions, is a 4-byte
 * big-endian `u32` length followed by that many bytes. The socket is a `Stream` whose input is
 * everything the peer sends before it closes the connection.
 */
module Wire {
  import opened Common

  /** `u32::from_be_bytes`: the most significant byte first. */
  function BeU32(b: seq<byte>): (n: nat)
    requires |b| == 4
    ensures n < U32_LIMIT
  {
    ((b[0] as int * 0x100 + b[1]) * 0x100 + b[2]) * 0x100 + b[3]
  }

  /** `u32::to_be_bytes`: four bytes, the most significant first. */
  function ToBeBytes(n: nat): (b: seq<byte>)
    requires n < U32_LIMIT
    ensures |b| == 4
  {
    var low := n / 0x100;
    var mid := low / 0x100;
    [mid / 0x100, mid % 0x100, low % 0x100, n % 0x100]
  }

  /** Encoding a length and decoding it again gives the length back. */
  lemma {:induction false} DecodeEncode(n: nat)
    requires n < U32_LIMIT
    ensures BeU32(ToBeBytes(n)) == n
  {
    var b := ToBeBytes(n);
    var low := n / 0x100;
    var mid := low / 0x100;
    assert b[0] as int * 0x100 + b[1] == mid;
    assert mid * 0x100 + b[2] == low;
    assert low * 0x100 + b[3] == n;
  }

  /** Splitting `k * 256 + r` at 256 gives back `k` and the byte `r`. */
  lemma ByteSplit(k: nat, r: byte)
    ensures (k * 0x100 + r as int) / 0x100 == k && (k * 0x100 + r as int) % 0x100 == r
  {
  }

  /** Decoding four bytes and encoding the value again gives the same four bytes. */
  lemma {:induction false} EncodeDecode(b: seq<byte>)
    requires |b| == 4
    ensures ToBeBytes(BeU32(b)) == b
  {
    var mid: nat := b[0] as int * 0x100 + b[1];
    var low: nat := mid * 0x100 + b[2];
    ByteSplit(low, b[3]);
    ByteSplit(mid, b[2]);
    ByteSplit(b[0], b[1]);
  }

  /** The bytes of an ASCII text. */
  function Ascii(s: string): (b: seq<byte>)
    requires forall i | 0 <= i < |s| :: s[i] as int < 0x80
    ensures |b| == |s|
    ensures forall i | 0 <= i < |s| :: b[i] == s[i] as int
  {
    seq(|s|, i requires 0 <= i < |s| => s[i] as int)
  }

  /** The body of the acknowledgement sent after every accepted command. */
  const SUCCESS: seq<byte> := Ascii("{\"type\": \"success\"}")

  /** The whole acknowledgement: its length as a big-endian `u32`, then the body. */
  function Reply(): seq<byte>
  {
    ToBeBytes(|SUCCESS|) + SUCCESS
  }

  /** The acknowledgement is 23 bytes: the length 19 as `[0, 0, 0, 19]`, then `{"type": "success"}`. */
  lemma ReplyLayout()
    ensures |SUCCESS| == 19
    ensures Reply() == [0, 0, 0, 19] + SUCCESS
    ensures |Reply()| == 23 && BeU32(Reply()[..4]) == |Reply()| - 4
  {
    assert Reply()[..4] == [0, 0, 0, 19];
  }

  /** A peer connection, as the bytes it delivers and the bytes written back to it. */
  class Stream {
    /** Everything the peer sends before closing its side. */
    const input: seq<byte>
    /** How much of `input` has been consumed. */
    var pos: nat
    /** Everything written to the peer so far. */
    var output: seq<byte>

    ghost predicate Valid()
      reads this
    {
      pos <= |input|
    }

    /** The bytes not yet read. */
    function Unread(): seq<byte>
      reads this
      requires Valid()
    {
      input[pos..]
    }

    constructor (input: seq<byte>)
      ensures this.input == input && pos == 0 && output == []
      ensures Valid()
    {
      this.input, pos, output := input, 0, [];
    }

    /**
     * `read_exact` into a buffer of `n` bytes: the next `n` bytes, or `None` (an `UnexpectedEof`
     * error) when the peer closed before sending them, in which case the rest is consumed.
     */
    method ReadExact(n: nat) returns (r: Option<seq<byte>>)
      requires Valid()
      modifies this
      ensures Valid() && output == old(output)
      ensures old(pos) + n <= |input| ==> r == Some(input[old(pos)..old(pos) + n]) && pos == old(pos) + n
      ensures old(pos) + n > |input| ==> r == None && pos == |input|
    {
      if pos + n <= |input| {
        r := Some(input[pos..pos + n]);
        pos := pos + n;
      } else {
        r := None;
        pos := |input|;
      }
    }

    /** `write`, taken to accept every byte. */
    method Write(bytes: seq<byte>)
      requires Valid()
      modifies this
      ensures Valid() && pos == old(pos)
      ensures output == old(output) + bytes
    {
      output := output + bytes;
    }
  }
}
