/** The interpreter's process-wide source text (interpreter/src/runtime.rs).
    Each chunk of source that is run is appended to one shared buffer, and
    the offset where it starts is handed back, so that spans into the
    buffer stay valid as later chunks are added. The global cell becomes
    an object here. The text is a sequence of characters, while the offsets
    handed back count UTF-8 bytes, as `String::len` does: `ChunkStart` is
    the character index of a chunk and `AppendOffset` its byte offset. */
module SourceBuffer {
  import opened Utf8

  /** The buffer after appending `src` to `orig`: `src` alone when the
      buffer was empty, otherwise the old text, a newline, then `src`.
      The byte offset handed back is the UTF-8 length of everything before
      the new chunk. */
  function AppendText(orig: string, src: string): (text: string)
    ensures |text| == ChunkStart(orig) + |src|
    ensures text[ChunkStart(orig)..] == src
    ensures text[..|orig|] == orig
    ensures orig != [] ==> text[|orig|] == '\n'
    ensures Utf8Size(text[..ChunkStart(orig)]) == AppendOffset(orig)
  {
    if orig == [] then src
    else
      var text := orig + "\n" + src;
      assert text[..ChunkStart(orig)] == orig + "\n";
      Utf8SizeAppend(orig, "\n");
      assert Utf8Size("\n") == Utf8Size("") + Utf8Len('\n');
      text
  }

  /** The character index where the appended text starts. */
  function ChunkStart(orig: string): nat {
    if orig == [] then 0 else |orig| + 1
  }

  /** The byte offset where the appended text starts (`orig.len() + 1`,
      counted in bytes). It is never below the character index, and the
      two agree on ASCII text. */
  function AppendOffset(orig: string): (offset: nat)
    ensures orig == [] <==> offset == 0
    ensures ChunkStart(orig) <= offset <= 4 * ChunkStart(orig)
    ensures IsAscii(orig) ==> offset == ChunkStart(orig)
  {
    Utf8SizeAscii(orig);
    if orig == [] then 0 else Utf8Size(orig) + 1
  }

  /** A chunk stays where it was put: appending more text never moves or
      changes an earlier chunk, nor the bytes in front of it. */
  lemma EarlierChunkSurvives(orig: string, first: string, second: string)
    ensures var start := ChunkStart(orig);
            var text := AppendText(AppendText(orig, first), second);
            start + |first| <= |text| && text[start..start + |first|] == first
            && Utf8Size(text[..start]) == AppendOffset(orig)
  {
    var start := ChunkStart(orig);
    var once := AppendText(orig, first);
    var text := AppendText(once, second);
    assert text[..|once|] == once;
    assert once[start..] == first;
    assert text[start..start + |first|] == text[..|once|][start..];
    assert text[..start] == once[..start];
  }

  class SourceBuffer {
    var text: string

    /** The buffer starts out empty (`String::new()`). */
    constructor ()
      ensures text == ""
    {
      text := "";
    }

    /** `set_source`: replaces the whole text. */
    method SetSource(source: string)
      modifies this
      ensures text == source
    {
      text := source;
    }

    /** `append_source`: appends a chunk and returns its byte offset. */
    method AppendSource(src: string) returns (offset: nat)
      modifies this
      ensures text == AppendText(old(text), src)
      ensures offset == AppendOffset(old(text))
      ensures text[ChunkStart(old(text))..] == src
      ensures Utf8Size(text[..ChunkStart(old(text))]) == offset
    {
      var orig := Source();
      if |orig| == 0 {
        SetSource(src);
        offset := 0;
      } else {
        SetSource(orig + "\n" + src);
        offset := Utf8Size(orig) + 1;
      }
    }

    /** `source`: the text processed so far. */
    function Source(): (s: string)
      reads this
      ensures s == text
    {
      text
    }
  }
}
