/**
 The content loop in terms of the blocks alone: which blocks cut the text, what
 they add themselves, and what becomes of the text between two cuts. These laws
 leave no choice: nothing but the converted parts satisfies them.
 */
module ContentLaws {
  import opened Sequences
  import opened Text
  import opened RequestContent

  // ---- The parts ----

  /** The parts the loop builds. */
  function PartsOf(blocks: seq<Block>): seq<Part> {
    Merge(FlatMap(Tokens, blocks))
  }

  /** Everything but plain text and uncached documents; a cached text only if there is some. */
  predicate Cuts(block: Block) {
    match block
    case TextBlock(text, cache) => cache.Some? && text.Some? && text.value != ""
    case Document(_, _, cache) => cache.Some?
    case _ => true
  }

  /** A document is announced by its title and, if it has one, its context. */
  function Announcement(title: Option<string>, context: Option<string>): string {
    var head := match title case None => "[Document: untitled]" case Some(t) => "[Document: " + t + "]";
    match context
    case None => head
    case Some(c) => if |c| == 0 then head else head + "\nContext: " + c
  }

  function ImageUrls(source: ImageSource): seq<string> {
    match source
    case Base64(None, data) => if |data| == 0 then [] else ["data:image/jpeg;base64," + data]
    case Base64(Some(kind), data) => if |data| == 0 then [] else ["data:" + kind + ";base64," + data]
    case Url(url) => if |url| == 0 then [] else [url]
    case NoSource => []
    case OtherSource => []
  }

  /** The parts a cutting block adds: its text or image with its `cache_control`, or nothing. */
  function Own(block: Block): seq<Part>
    requires Cuts(block)
  {
    match block
    case TextBlock(text, cache) => [TextPart(text.value, cache)]
    case Document(title, context, cache) => [TextPart(Announcement(title, context), cache)]
    case Image(source, cache) =>
      var urls := ImageUrls(source);
      if urls == [] then [] else [ImagePart(urls[0], cache)]
    case _ => []
  }

  /** The text a block that does not cut adds to the run it stands in. */
  function PlainText(block: Block): string {
    match block
    case TextBlock(Some(s), None) => s
    case Document(title, context, None) => Announcement(title, context)
    case _ => ""
  }

  lemma AnnouncementIsDocumentText(title: Option<string>, context: Option<string>)
    ensures DocumentText(title, context) == Announcement(title, context) != ""
  {
    var head := "[Document: " + (if title.Some? then title.value else "untitled") + "]";
    assert title.None? ==> head == "[Document: untitled]";
    if Truthy(context) {
      assert head + ("\nContext: " + context.value) == head + "\nContext: " + context.value;
    } else {
      assert head + "" == head;
    }
  }

  lemma UrlIsConverted(source: ImageSource)
    ensures ImageUrls(source) == if ConvertImage(source).Some? then [ConvertImage(source).value] else []
  {
    match source
    case Base64(None, data) =>
      assert "data:" + "image/jpeg" + ";base64," + data == "data:image/jpeg;base64," + data;
    case _ =>
  }

  lemma CutToken(block: Block)
    requires Cuts(block)
    ensures Tokens(block) == [Cut(Own(block))]
  {
    hide DocumentText, Announcement, ImageUrls, ConvertImage;
    match block
    case Image(source, cache) => UrlIsConverted(source);
    case Document(title, context, cache) => AnnouncementIsDocumentText(title, context);
    case _ =>
  }

  lemma PlainToken(block: Block)
    requires !Cuts(block)
    ensures Tokens(block) == if PlainText(block) == "" then [] else [Piece(PlainText(block))]
  {
    hide DocumentText, Announcement;
    match block
    case Document(title, context, cache) => AnnouncementIsDocumentText(title, context);
    case _ =>
  }

  lemma {:induction false} RunLengthKept(ts: seq<Token>, cut: Token)
    requires cut.Cut?
    ensures RunLength(ts + [cut]) == RunLength(ts)
  {
    if ts == [] {
    } else {
      assert (ts + [cut])[1..] == ts[1..] + [cut];
      RunLengthKept(ts[1..], cut);
    }
  }

  lemma RunIsNotEmpty(ts: seq<Token>)
    requires ts != [] && ts[0].Piece?
    ensures 0 < RunLength(ts)
  {
  }

  lemma {:induction false} MergeThenCut(ts: seq<Token>, parts: seq<Part>)
    ensures Merge(ts + [Cut(parts)]) == Merge(ts) + parts
    decreases |ts|
  {
    hide Merge, RunLength, FlatMap;
    var all := ts + [Cut(parts)];
    MergeNone();
    if ts == [] {
      MergeCut(all);
      assert all[1..] == [] && parts + [] == parts && all[0] == Cut(parts);
    } else if ts[0].Cut? {
      MergeCut(ts);
      MergeCut(all);
      assert all[1..] == ts[1..] + [Cut(parts)];
      MergeThenCut(ts[1..], parts);
    } else {
      var n := RunLength(ts);
      RunLengthKept(ts, Cut(parts));
      RunIsNotEmpty(ts);
      MergePiece(ts, n);
      MergePiece(all, n);
      assert all[..n] == ts[..n] && all[n..] == ts[n..] + [Cut(parts)];
      MergeThenCut(ts[n..], parts);
    }
  }

  /** A cutting block ends the text before it, adds its own part, and what follows starts anew. */
  lemma CutLaw(before: seq<Block>, block: Block, after: seq<Block>)
    requires Cuts(block)
    ensures PartsOf(before + [block] + after) == PartsOf(before) + Own(block) + PartsOf(after)
  {
    hide Merge, FlatMap, Tokens, Own, Cuts;
    var a, b := FlatMap(Tokens, before), FlatMap(Tokens, after);
    CutToken(block);
    FlatMapSnoc(Tokens, before, block);
    FlatMapAppend(Tokens, before + [block], after);
    MergeThenCut(a, Own(block));
    MergeAfterCut(a + [Cut(Own(block))], b);
  }

  lemma PieceFirst(s: string, rest: seq<string>)
    ensures AsPieces([s] + rest) == [Piece(s)] + AsPieces(rest)
  {
    hide AsPieces;
    var all := AsPieces([s] + rest);
    assert all[0] == Piece(s);
    assert forall i | 0 <= i < |rest| :: all[i + 1] == Piece(([s] + rest)[i + 1]) == AsPieces(rest)[i];
  }

  lemma {:induction false} PlainPieces(blocks: seq<Block>) returns (acc: seq<string>)
    requires forall b <- blocks :: !Cuts(b)
    ensures FlatMap(Tokens, blocks) == AsPieces(acc)
    ensures Concat(acc) == FlatMap(PlainText, blocks) && (acc == [] <==> FlatMap(PlainText, blocks) == "")
  {
    hide Tokens, Cuts, PlainText;
    if blocks == [] {
      acc := [];
    } else {
      var b := blocks[0];
      assert b in blocks;
      PlainToken(b);
      var rest := PlainPieces(blocks[1..]);
      hide FlatMap;
      assert blocks == [b] + blocks[1..];
      FlatMapCons(Tokens, b, blocks[1..]);
      FlatMapCons(PlainText, b, blocks[1..]);
      if PlainText(b) == "" {
        acc := rest;
      } else {
        acc := [PlainText(b)] + rest;
        PieceFirst(PlainText(b), rest);
        FlatMapCons(Text.Same, PlainText(b), rest);
      }
    }
  }

  /** Between two cuts there is one uncached part with all the text, none if there is no text. */
  lemma PlainLaw(blocks: seq<Block>)
    requires forall b <- blocks :: !Cuts(b)
    ensures var text := FlatMap(PlainText, blocks);
            PartsOf(blocks) == if text == "" then [] else [TextPart(text, None)]
  {
    hide Merge, FlatMap, Tokens, Cuts, PlainText;
    var acc := PlainPieces(blocks);
    MergePieces(acc);
  }

  /** A conversion of lists of blocks that obeys the two laws. */
  ghost predicate ObeysLaws(parts: seq<Block> -> seq<Part>) {
    && (forall blocks: seq<Block> | forall b <- blocks :: !Cuts(b) ::
          parts(blocks) == var text := FlatMap(PlainText, blocks); if text == "" then [] else [TextPart(text, None)])
    && (forall before: seq<Block>, b: Block, after: seq<Block> | Cuts(b) ::
          parts(before + [b] + after) == parts(before) + Own(b) + parts(after))
  }

  /** The laws determine the parts. */
  lemma {:induction false} LawsDetermineParts(parts: seq<Block> -> seq<Part>, blocks: seq<Block>)
    requires ObeysLaws(parts)
    ensures parts(blocks) == PartsOf(blocks)
    decreases |blocks|
  {
    hide PartsOf, Own, Cuts, PlainText;
    if i :| 0 <= i < |blocks| && Cuts(blocks[i]) {
      var before, b, after := blocks[..i], blocks[i], blocks[i + 1..];
      assert blocks == before + [b] + after;
      LawsDetermineParts(parts, before);
      LawsDetermineParts(parts, after);
      CutLaw(before, b, after);
    } else {
      assert forall b <- blocks :: !Cuts(b);
      PlainLaw(blocks);
    }
  }
}
