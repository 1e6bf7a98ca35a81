/** `extract_text`: the uploaded file's text, chosen by the file name's suffix. */
module Extraction {
  import opened Wrappers
  import opened Python
  import opened Oracles

  /** Python's `s.endswith(suffix)`. */
  predicate EndsWith(s: string, suffix: string)
  {
    |suffix| <= |s| && s[|s| - |suffix|..] == suffix
  }

  /** The page texts joined in order with nothing between them. */
  function Concat(pages: seq<string>): string
    decreases |pages|
  {
    if pages == [] then "" else Concat(pages[..|pages| - 1]) + pages[|pages| - 1]
  }

  /** The sum of the page lengths. */
  function TotalLength(pages: seq<string>): nat
    decreases |pages|
  {
    if pages == [] then 0 else |pages[0]| + TotalLength(pages[1..])
  }

  /** Joining is associative over splitting the page list. */
  lemma {:induction false} ConcatAppend(a: seq<string>, b: seq<string>)
    ensures Concat(a + b) == Concat(a) + Concat(b)
    decreases |b|
  {
    if b == [] {
      assert a + b == a;
    } else {
      var b' := b[..|b| - 1];
      assert (a + b)[..|a + b| - 1] == a + b';
      ConcatAppend(a, b');
    }
  }

  /** Page `k` appears whole, right after the pages before it and right before the pages after it. */
  lemma ConcatAt(pages: seq<string>, k: nat)
    requires k < |pages|
    ensures Concat(pages) == Concat(pages[..k]) + pages[k] + Concat(pages[k + 1..])
  {
    var front, rest := pages[..k + 1], pages[k + 1..];
    assert pages == front + rest;
    ConcatAppend(front, rest);
    assert Concat(pages) == Concat(front) + Concat(rest);
    assert front[..k] == pages[..k] && front[k] == pages[k];
    assert Concat(front) == Concat(pages[..k]) + pages[k];
  }

  /** No character is inserted between pages: the text is exactly as long as the pages together. */
  lemma {:induction false} ConcatLength(pages: seq<string>)
    ensures |Concat(pages)| == TotalLength(pages)
    decreases |pages|
  {
    if pages != [] {
      assert pages == [pages[0]] + pages[1..];
      ConcatAppend([pages[0]], pages[1..]);
      assert Concat([pages[0]]) == Concat([]) + pages[0];
      ConcatLength(pages[1..]);
    }
  }

  /**
   * What `extract_text(content, filename)` returns or raises: `.pdf` is tested first,
   * then `.txt`; any other name raises HTTP 400 "Unsupported file format".
   */
  function Extracted(lib: Library, content: seq<byte>, filename: string): (r: Result<string, Error>)
    ensures r == Failure(UnsupportedFormat) <==> !EndsWith(filename, ".pdf") && !EndsWith(filename, ".txt")
    ensures EndsWith(filename, ".pdf") ==>
      (r.Success? <==> lib.readPdf(content).Success?) &&
      (r.Success? ==> r.value == Concat(lib.readPdf(content).value)) &&
      (r.Failure? ==> r.error == ExtractionFailed(lib.readPdf(content).error))
    ensures !EndsWith(filename, ".pdf") && EndsWith(filename, ".txt") ==>
      (r.Success? <==> lib.decodeUtf8(content).Success?) &&
      (r.Success? ==> r.value == lib.decodeUtf8(content).value) &&
      (r.Failure? ==> r.error == ExtractionFailed(lib.decodeUtf8(content).error))
  {
    if EndsWith(filename, ".pdf") then
      match lib.readPdf(content)
      case Success(pages) => Success(Concat(pages))
      case Failure(msg) => Failure(ExtractionFailed(msg))
    else if EndsWith(filename, ".txt") then
      match lib.decodeUtf8(content)
      case Success(text) => Success(text)
      case Failure(msg) => Failure(ExtractionFailed(msg))
    else
      Failure(UnsupportedFormat)
  }

  /** `extract_text` with its loop appending page after page. */
  method ExtractText(lib: Library, content: seq<byte>, filename: string) returns (r: Result<string, Error>)
    ensures r == Extracted(lib, content, filename)
  {
    if EndsWith(filename, ".pdf") {
      var read := lib.readPdf(content);
      if read.Failure? {
        return Failure(ExtractionFailed(read.error));
      }
      var pages := read.value;
      var text := "";
      for i := 0 to |pages|
        invariant text == Concat(pages[..i])
      {
        assert pages[..i + 1][..i] == pages[..i];
        text := text + pages[i];
      }
      assert pages[..|pages|] == pages;
      r := Success(text);
    } else if EndsWith(filename, ".txt") {
      var decoded := lib.decodeUtf8(content);
      r := if decoded.Success? then Success(decoded.value) else Failure(ExtractionFailed(decoded.error));
    } else {
      r := Failure(UnsupportedFormat);
    }
  }
}
