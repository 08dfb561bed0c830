/**
 * Images and the PNG files the connectors upload. The byte-level PNG encoding done by
 * PIL is not computed: `PngFile` is a free constructor standing for "the PNG that
 * holds these pixels and these text chunks".
 */
module Png {
  import opened Runtime
  import opened Text

  /** The pixels of a generated image. */
  datatype Image = Image(pixels: seq<bv8>)

  /** The values a `png_info` dictionary may hold. */
  datatype Value = TextValue(s: string) | IntValue(i: int) | BoolValue(b: bool)

  /** Python's `str(v)`. */
  function ToStr(v: Value): string
  {
    match v
    case TextValue(s) => s
    case IntValue(i) => IntToString(i)
    case BoolValue(b) => if b then "True" else "False"
  }

  /** A `png_info` dictionary, its entries in insertion order. */
  type PngInfo = seq<(string, Value)>

  ghost predicate DistinctKeys(info: PngInfo)
  {
    forall i, j :: 0 <= i < j < |info| ==> info[i].0 != info[j].0
  }

  /** A PNG `tEXt` chunk. */
  datatype TextChunk = TextChunk(key: string, text: string)

  /** The encoded file: pixels plus text chunks in the order they were added. */
  datatype PngFile = PngFile(image: Image, chunks: seq<TextChunk>)

  /** The chunks `PngInfo.add_text(k, str(v))` adds for each entry, in order. */
  function TextChunks(info: PngInfo): seq<TextChunk>
  {
    seq(|info|, i requires 0 <= i < |info| => TextChunk(info[i].0, ToStr(info[i].1)))
  }

  /**
   * The loop `for k, v in png_info.items(): pnginfo_data.add_text(k, str(v))` shared by
   * the SFTP and Google Drive connectors.
   */
  method BuildTextChunks(info: PngInfo) returns (chunks: seq<TextChunk>)
    ensures chunks == TextChunks(info)
  {
    chunks := [];
    var i := 0;
    while i < |info|
      invariant 0 <= i <= |info|
      invariant chunks == TextChunks(info[..i])
    {
      var (k, v) := info[i];
      assert info[..i + 1] == info[..i] + [info[i]];
      chunks := chunks + [TextChunk(k, ToStr(v))];
      i := i + 1;
    }
    assert info[..i] == info;
  }

  /** The text a reader of the file finds under `key`; a later chunk wins over an earlier one. */
  function TextOf(chunks: seq<TextChunk>, key: string): Option<string>
  {
    if |chunks| == 0 then None
    else if chunks[|chunks| - 1].key == key then Some(chunks[|chunks| - 1].text)
    else TextOf(chunks[..|chunks| - 1], key)
  }

  /**
   * Reading back an uploaded file finds every metadata entry, converted by `str`,
   * and no key that was not in the dictionary.
   */
  lemma {:induction false} TextOfTextChunks(info: PngInfo, key: string)
    requires DistinctKeys(info)
    ensures forall i :: 0 <= i < |info| && info[i].0 == key ==> TextOf(TextChunks(info), key) == Some(ToStr(info[i].1))
    ensures (forall i :: 0 <= i < |info| ==> info[i].0 != key) ==> TextOf(TextChunks(info), key) == None
    decreases |info|
  {
    if |info| > 0 {
      var init := info[..|info| - 1];
      assert TextChunks(info)[..|info| - 1] == TextChunks(init);
      assert DistinctKeys(init);
      TextOfTextChunks(init, key);
    }
  }
}
