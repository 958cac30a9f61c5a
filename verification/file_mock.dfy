/** The test suite's in-memory stand-in for an open file: a buffer of
    characters that every read consumes from the front. */
module FileMocks {

  /** Where Python's slice s[0:n] stops in a string of length len: a
      non-negative n is clamped to len, a negative n counts back from the end
      and is clamped to 0. */
  function SliceStop(n: int, len: nat): (k: nat)
    ensures k <= len
  {
    if n < 0 then (if len + n < 0 then 0 else len + n)
    else if n < len then n
    else len
  }

  class FileMock {
    /** The characters not yet read (the mock's `string` attribute). */
    var text: string

    constructor (s: string)
      ensures text == s
    {
      text := s;
    }

    /** Closing the mock does nothing. */
    method Close()
      ensures unchanged(this)
    {
    }

    /** Hands back the first n characters (Python slice semantics) and drops
        them from the buffer: what is returned followed by what is left is
        exactly what was there, so nothing is lost or reordered. */
    method Read(n: int) returns (r: string)
      modifies this
      ensures r + text == old(text)
      ensures r == old(text)[..SliceStop(n, |old(text)|)]
      ensures n >= 0 ==> |r| == if n < |old(text)| then n else |old(text)|
      ensures old(text) == [] ==> r == [] && text == []
    {
      var k := SliceStop(n, |text|);
      r := text[..k];
      text := text[k..];
      assert r + text == old(text);
    }
  }

  /** The size of each read a markup reader issues against its source. */
  const ReadSize := 65536

  /** Consumes a source to its end the way a markup reader does: it reads
      chunks until a read returns the empty string. The chunks put together
      are the whole of the original text, and the source is left empty. */
  method ReadToEnd(source: FileMock) returns (all: string)
    modifies source
    ensures all == old(source.text)
    ensures source.text == []
  {
    all := [];
    var piece := source.Read(ReadSize);
    while piece != []
      invariant all + piece + source.text == old(source.text)
      invariant piece == [] ==> source.text == []
      decreases |piece| + |source.text|
    {
      all := all + piece;
      piece := source.Read(ReadSize);
    }
  }
}
