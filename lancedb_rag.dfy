/**
 * lancedb-cookbook/lancedb_rag_with_tracing.py: loading a text file as one document per
 * non-blank line, cutting the documents into fixed-size chunks, and joining the retrieved
 * texts into the answer's context. The file read, LanceDB and the model call are left out:
 * `readlines()` is an input.
 */
module LancedbRag {
  import opened Wrappers
  import Text
  import Dicts
  import opened PyValue

  /** A `Document`: the stripped line and its metadata `{"source": path, "line_number": i}`. */
  datatype Document = Document(text: string, source: string, lineNumber: nat)

  const DefaultChunkSize := 1000

  /** `line.strip()` of every line. */
  function StrippedLines(lines: seq<string>): (r: seq<string>)
    ensures |r| == |lines| && forall i :: 0 <= i < |lines| ==> r[i] == Text.Strip(lines[i])
    decreases |lines|
  {
    if lines == [] then [] else [Text.Strip(lines[0])] + StrippedLines(lines[1..])
  }

  /** One document per non-empty stripped line, numbered by its position. */
  function Kept(path: string, texts: seq<string>): seq<Document>
    decreases |texts|
  {
    if texts == [] then []
    else
      var n := |texts| - 1;
      Kept(path, texts[..n]) + (if texts[n] != "" then [Document(texts[n], path, n)] else [])
  }

  /** The documents of a file's lines, in order. */
  function Loaded(path: string, lines: seq<string>): seq<Document> {
    Kept(path, StrippedLines(lines))
  }

  lemma {:induction false} KeptFromTexts(path: string, texts: seq<string>)
    ensures var docs := Kept(path, texts);
      |docs| <= |texts| &&
      forall k :: 0 <= k < |docs| ==>
        docs[k].lineNumber < |texts| && docs[k].source == path &&
        docs[k].text == texts[docs[k].lineNumber] && docs[k].text != ""
    decreases |texts|
  {
    if texts != [] {
      var n := |texts| - 1;
      KeptFromTexts(path, texts[..n]);
      var before := Kept(path, texts[..n]);
      assert forall k :: 0 <= k < |before| ==> Kept(path, texts)[k] == before[k];
    }
  }

  lemma {:induction false} KeptInOrder(path: string, texts: seq<string>)
    ensures var docs := Kept(path, texts);
      forall k, l :: 0 <= k < l < |docs| ==> docs[k].lineNumber < docs[l].lineNumber
    decreases |texts|
  {
    if texts != [] {
      var n := |texts| - 1;
      KeptInOrder(path, texts[..n]);
      KeptFromTexts(path, texts[..n]);
      var before := Kept(path, texts[..n]);
      assert forall k :: 0 <= k < |before| ==> Kept(path, texts)[k] == before[k];
    }
  }

  lemma {:induction false} KeptPosition(path: string, texts: seq<string>, i: nat) returns (k: nat)
    requires i < |texts| && texts[i] != ""
    ensures k < |Kept(path, texts)| && Kept(path, texts)[k].lineNumber == i
    decreases |texts|
  {
    var n := |texts| - 1;
    var before := Kept(path, texts[..n]);
    if i < n {
      assert texts[..n][i] == texts[i];
      k := KeptPosition(path, texts[..n], i);
      assert Kept(path, texts)[k] == before[k];
    } else {
      k := |before|;
    }
  }

  /**
   * Each document is a non-blank line of the file, stripped, with its own 0-based index; the
   * documents keep the lines' order.
   */
  lemma LoadedFromLines(path: string, lines: seq<string>)
    ensures var docs := Loaded(path, lines);
      |docs| <= |lines| &&
      (forall k :: 0 <= k < |docs| ==>
        docs[k].lineNumber < |lines| && docs[k].source == path &&
        docs[k].text == Text.Strip(lines[docs[k].lineNumber]) && docs[k].text != "") &&
      (forall k, l :: 0 <= k < l < |docs| ==> docs[k].lineNumber < docs[l].lineNumber)
  {
    KeptFromTexts(path, StrippedLines(lines));
    KeptInOrder(path, StrippedLines(lines));
  }

  /** Every non-blank line gives a document: the `k`-th. */
  lemma LoadedComplete(path: string, lines: seq<string>, i: nat) returns (k: nat)
    requires i < |lines| && Text.Strip(lines[i]) != ""
    ensures k < |Loaded(path, lines)| && Loaded(path, lines)[k].lineNumber == i
  {
    k := KeptPosition(path, StrippedLines(lines), i);
  }

  /** Keeping one more text extends the documents by that text's document, if it is not empty. */
  lemma KeptNext(path: string, texts: seq<string>, i: nat)
    requires i < |texts|
    ensures Kept(path, texts[..i + 1]) ==
      Kept(path, texts[..i]) + (if texts[i] != "" then [Document(texts[i], path, i)] else [])
  {
    assert texts[..i + 1][..i] == texts[..i];
  }

  /** The loop of `load_documents` over the stripped lines: one document per non-empty line. */
  method KeepNonEmpty(path: string, texts: seq<string>) returns (documents: seq<Document>)
    ensures documents == Kept(path, texts)
  {
    documents := [];
    var i := 0;
    while i < |texts|
      invariant 0 <= i <= |texts|
      invariant documents == Kept(path, texts[..i])
    {
      KeptNext(path, texts, i);
      var t := texts[i];
      if t != "" {
        documents := documents + [Document(t, path, i)];
      }
      i := i + 1;
    }
    assert texts[..i] == texts;
  }

  /** `load_documents`, once the file's lines are read; a failed read is re-raised. */
  method LoadDocuments(path: string, read: Result<seq<string>>) returns (r: Result<seq<Document>>)
    ensures r.Err? <==> read.Err?
    ensures r.Err? ==> r.error == read.error
    ensures r.Ok? ==> r.value == Loaded(path, read.value)
  {
    if read.Err? {
      return Err(read.error);
    }
    var texts := StrippedLines(read.value);
    var documents := KeepNonEmpty(path, texts);
    return Ok(documents);
  }

  /** The chunks of one text: itself when short enough, else slices of `size` characters. */
  function Slices(text: string, size: nat): seq<string>
    requires size > 0
    decreases |text|
  {
    if |text| <= size then [text] else [text[..size]] + Slices(text[size..], size)
  }

  /** The number of chunks of a text of `n` characters. */
  function ChunkCount(n: nat, size: nat): (c: nat)
    requires size > 0
    ensures c >= 1
    decreases n
  {
    if n <= size then 1 else 1 + ChunkCount(n - size, size)
  }

  /** For a non-empty text the count is `ceil(n / size)`: the least `c` with `n <= c * size`. */
  lemma {:induction false} ChunkCountCeil(n: nat, size: nat)
    requires size > 0 && n > 0
    ensures (ChunkCount(n, size) - 1) * size < n <= ChunkCount(n, size) * size
    decreases n
  {
    if n > size {
      ChunkCountCeil(n - size, size);
      var c := ChunkCount(n - size, size);
      assert (c + 1) * size == c * size + size;
      assert c * size == (c - 1) * size + size;
    }
  }

  /** The chunks put back together give the text, and none is longer than `size`. */
  lemma {:induction false} SlicesCover(text: string, size: nat)
    requires size > 0
    ensures Text.Concat(Slices(text, size)) == text
    ensures forall k :: 0 <= k < |Slices(text, size)| ==> |Slices(text, size)[k]| <= size
    ensures text != [] ==> forall k :: 0 <= k < |Slices(text, size)| ==> Slices(text, size)[k] != []
    decreases |text|
  {
    var s := Slices(text, size);
    if |text| <= size {
      assert Text.Concat(s) == text + Text.Concat([]) by { assert s[1..] == []; }
    } else {
      var rest := text[size..];
      SlicesCover(rest, size);
      assert s[1..] == Slices(rest, size);
      assert text == text[..size] + rest;
    }
  }

  /** As many chunks as `ChunkCount` says. */
  lemma {:induction false} SlicesCount(text: string, size: nat)
    requires size > 0
    ensures |Slices(text, size)| == ChunkCount(|text|, size)
    decreases |text|
  {
    if |text| > size {
      SlicesCount(text[size..], size);
    }
  }

  /** All chunks of the documents, in document order. */
  function AllChunks(documents: seq<Document>, size: nat): seq<string>
    requires size > 0
    decreases |documents|
  {
    if documents == [] then []
    else AllChunks(documents[..|documents| - 1], size) + Slices(documents[|documents| - 1].text, size)
  }

  function TotalChunks(documents: seq<Document>, size: nat): nat
    requires size > 0
    decreases |documents|
  {
    if documents == [] then 0
    else TotalChunks(documents[..|documents| - 1], size) + ChunkCount(|documents[|documents| - 1].text|, size)
  }

  function Texts(documents: seq<Document>): seq<string> {
    seq(|documents|, k requires 0 <= k < |documents| => documents[k].text)
  }

  /** The chunks of all the documents spell out their texts, and there are as many as counted. */
  lemma {:induction false} AllChunksProperties(documents: seq<Document>, size: nat)
    requires size > 0
    ensures Text.Concat(AllChunks(documents, size)) == Text.Concat(Texts(documents))
    ensures |AllChunks(documents, size)| == TotalChunks(documents, size)
    ensures forall k :: 0 <= k < |AllChunks(documents, size)| ==> |AllChunks(documents, size)[k]| <= size
    decreases |documents|
  {
    if documents != [] {
      var n := |documents| - 1;
      var init := documents[..n];
      AllChunksProperties(init, size);
      SlicesCover(documents[n].text, size);
      SlicesCount(documents[n].text, size);
      ConcatOfAppend(AllChunks(init, size), Slices(documents[n].text, size));
      assert Texts(documents) == Texts(init) + [documents[n].text];
      Text.ConcatAppend(Texts(init), documents[n].text);
    }
  }

  lemma {:induction false} ConcatOfAppend(xs: seq<string>, ys: seq<string>)
    ensures Text.Concat(xs + ys) == Text.Concat(xs) + Text.Concat(ys)
    decreases |xs|
  {
    if xs == [] {
      assert xs + ys == ys;
    } else {
      assert (xs + ys)[1..] == xs[1..] + ys;
      ConcatOfAppend(xs[1..], ys);
    }
  }

  /** A non-empty text's chunks: the first `size` characters, then the chunks of the rest. */
  lemma SlicesUnfold(t: string, size: nat)
    requires size > 0 && t != []
    ensures Slices(t, size) == [Text.Take(t, size)] + if |t| <= size then [] else Slices(t[size..], size)
  {
  }

  /** The `range(0, len(text), chunk_size)` loop over a text longer than one chunk. */
  method SliceText(text: string, size: nat) returns (chunks: seq<string>)
    requires 0 < size < |text|
    ensures chunks == Slices(text, size)
  {
    chunks := [];
    var i := 0;
    assert text[i..] == text;
    while i < |text|
      invariant i <= |text| + size
      invariant i < |text| ==> chunks + Slices(text[i..], size) == Slices(text, size)
      invariant i >= |text| ==> chunks == Slices(text, size)
      decreases |text| - i
    {
      var end := if i + size <= |text| then i + size else |text|;
      var t := text[i..];
      SlicesUnfold(t, size);
      assert text[i..end] == Text.Take(t, size);
      if i + size < |text| {
        assert t[size..] == text[i + size..];
      }
      chunks := chunks + [text[i..end]];
      i := i + size;
    }
  }

  const RangeStepZero := "range() arg 3 must not be zero"

  /**
   * `chunk_documents`. A text no longer than `chunk_size` is kept whole; a longer one is cut by
   * `range(0, len(text), chunk_size)`, which raises for a zero size and is empty for a negative
   * one. So a positive size gives every document's chunks, a negative size gives no chunks, and
   * a zero size keeps the texts when all are empty and raises at the first that is not.
   */
  method ChunkDocuments(documents: seq<Document>, chunkSize: int) returns (r: Result<seq<string>>)
    ensures chunkSize > 0 ==> r == Ok(AllChunks(documents, chunkSize))
    ensures chunkSize < 0 ==> r == Ok([])
    ensures chunkSize == 0 ==> (r.Ok? <==> forall k :: 0 <= k < |documents| ==> documents[k].text == [])
    ensures chunkSize == 0 && r.Ok? ==> r.value == Texts(documents)
    ensures r.Err? ==> r.error == ValueError(RangeStepZero)
  {
    var chunks := [];
    var d := 0;
    while d < |documents|
      invariant 0 <= d <= |documents|
      invariant chunkSize > 0 ==> chunks == AllChunks(documents[..d], chunkSize)
      invariant chunkSize < 0 ==> chunks == []
      invariant chunkSize == 0 ==> chunks == Texts(documents[..d])
      invariant chunkSize == 0 ==> forall k :: 0 <= k < d ==> documents[k].text == []
    {
      assert documents[..d + 1][..d] == documents[..d];
      var text := documents[d].text;
      if |text| <= chunkSize {
        chunks := chunks + [text];
      } else if chunkSize == 0 {
        return Err(ValueError(RangeStepZero));
      } else if chunkSize > 0 {
        var pieces := SliceText(text, chunkSize);
        chunks := chunks + pieces;
      }
      d := d + 1;
    }
    assert documents[..d] == documents;
    return Ok(chunks);
  }

  /** `[item["text"] for item in context]`: the first item without "text" raises KeyError. */
  function ItemTexts(context: seq<Entries>): (r: Result<seq<Value>>)
    ensures r.Ok? <==> forall k :: 0 <= k < |context| ==> Dicts.HasKey(context[k], "text")
    ensures r.Ok? ==> |r.value| == |context|
    ensures r.Ok? ==> forall k :: 0 <= k < |context| ==> Some(r.value[k]) == Dicts.Lookup(context[k], "text")
    ensures r.Err? ==> r.error == KeyError("text")
    decreases |context|
  {
    if context == [] then Ok([])
    else
      var first :- Dicts.Index(context[0], "text");
      var rest :- ItemTexts(context[1..]);
      Ok([first] + rest)
  }

  /** `"\n\n".join(...)`: every item must be a string. */
  function JoinStrings(sep: string, xs: seq<Value>): (r: Result<string>)
    ensures r.Ok? <==> forall k :: 0 <= k < |xs| ==> xs[k].Str?
    ensures r.Ok? ==> r.value == Text.Join(sep, seq(|xs|, k requires 0 <= k < |xs| => xs[k].s))
  {
    if forall k :: 0 <= k < |xs| ==> xs[k].Str? then
      Ok(Text.Join(sep, seq(|xs|, k requires 0 <= k < |xs| => xs[k].s)))
    else Err(TypeError("sequence item: expected str instance"))
  }

  /** The context text of `generate_answer`. */
  function ContextText(context: seq<Entries>): Result<string> {
    var texts :- ItemTexts(context);
    JoinStrings("\n\n", texts)
  }

  /**
   * The context is the retrieved texts, in retrieval order, separated by blank lines; a
   * missing "text" is a KeyError and a non-string text a TypeError.
   */
  lemma ContextJoin(context: seq<Entries>)
    ensures var r := ContextText(context);
      (r.Ok? <==> forall k :: 0 <= k < |context| ==>
        Dicts.HasKey(context[k], "text") && Dicts.Lookup(context[k], "text").value.Str?) &&
      (r.Ok? ==> r.value == Text.Join("\n\n",
        seq(|context|, k requires 0 <= k < |context| && Dicts.HasKey(context[k], "text") => Dicts.Lookup(context[k], "text").value.s))) &&
      ((exists k :: 0 <= k < |context| && !Dicts.HasKey(context[k], "text")) ==> r == Err(KeyError("text")))
  {
    var texts := ItemTexts(context);
    if texts.Ok? {
      var xs := texts.value;
      assert forall k :: 0 <= k < |context| ==> Dicts.Lookup(context[k], "text").value == xs[k];
      if JoinStrings("\n\n", xs).Ok? {
        assert seq(|xs|, k requires 0 <= k < |xs| => xs[k].s) ==
          seq(|context|, k requires 0 <= k < |context| && Dicts.HasKey(context[k], "text") => Dicts.Lookup(context[k], "text").value.s);
      }
    }
  }
}
