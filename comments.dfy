/**
 * ClickUp comments: the segment list is turned into plain text plus the image
 * URLs, in segment order (`parse_comment`), and the author is named.
 */
module Comments {
  import opened Wrappers
  import opened Text

  /**
   * One entry of a comment's `comment` list. Absent keys are empty strings:
   * `type`, the segment's `text`, and the `thumbnail_large` and `url` of its `image`.
   */
  datatype Segment = Segment(kind: string, text: string, thumbnailLarge: string, url: string)

  /** The comment author; `email` is None when the key is absent. */
  datatype User = User(username: string, email: Option<string>)

  /** A ClickUp comment: its segments, its flat `comment_text` and its author. */
  datatype Comment = Comment(segments: seq<Segment>, commentText: string, user: User)

  predicate IsImage(s: Segment) {
    s.kind == "image"
  }

  /** The large thumbnail of an image segment, else its plain URL. */
  function ImageUrl(s: Segment): string {
    if s.thumbnailLarge != "" then s.thumbnailLarge else s.url
  }

  /** The image URLs of the segments, in segment order. */
  function ImageUrls(segs: seq<Segment>): seq<string> {
    if segs == [] then []
    else
      var last := segs[|segs| - 1];
      ImageUrls(segs[..|segs| - 1]) + (if IsImage(last) && ImageUrl(last) != "" then [ImageUrl(last)] else [])
  }

  /** The number of image segments that have a URL, counted from the front. */
  function ImagesWithUrl(segs: seq<Segment>): (n: nat)
    ensures n <= |segs|
  {
    if segs == [] then 0
    else (if IsImage(segs[0]) && ImageUrl(segs[0]) != "" then 1 else 0) + ImagesWithUrl(segs[1..])
  }

  /** The non-empty texts of the non-image segments, in segment order. */
  function TextParts(segs: seq<Segment>): seq<string> {
    if segs == [] then []
    else
      var last := segs[|segs| - 1];
      TextParts(segs[..|segs| - 1]) + (if !IsImage(last) && last.text != "" then [last.text] else [])
  }

  /** `"".join(parts)`. */
  function Concat(parts: seq<string>): string {
    if parts == [] then "" else Concat(parts[..|parts| - 1]) + parts[|parts| - 1]
  }

  /** The text `parse_comment` returns: the stripped joined segment texts, else `comment_text`. */
  function ParsedText(comment: Option<Comment>): (r: string)
    ensures comment.None? ==> r == ""
    ensures comment.Some? && r != comment.value.commentText ==> r != "" && !IsSpace(r[0]) && !IsSpace(r[|r| - 1])
  {
    match comment
    case None => ""
    case Some(c) =>
      var joined := Strip(Concat(TextParts(c.segments)));
      if joined != "" then joined else c.commentText
  }

  /** The images `parse_comment` returns. */
  function ParsedImages(comment: Option<Comment>): (r: seq<string>)
    ensures comment.None? ==> r == []
    ensures comment.Some? ==> |r| == ImagesWithUrl(comment.value.segments)
  {
    match comment
    case None => []
    case Some(c) =>
      ImageCount(c.segments);
      ImageUrls(c.segments)
  }

  /** Python's `parse_comment`: one pass over the segments, appending texts and image URLs. */
  method ParseComment(comment: Option<Comment>) returns (text: string, images: seq<string>)
    ensures text == ParsedText(comment)
    ensures images == ParsedImages(comment)
  {
    var textParts: seq<string> := [];
    images := [];
    if comment.None? {
      return "", [];
    }
    var segs := comment.value.segments;
    for i := 0 to |segs|
      invariant textParts == TextParts(segs[..i])
      invariant images == ImageUrls(segs[..i])
    {
      assert segs[..i + 1][..i] == segs[..i];
      var part := segs[i];
      if part.kind == "image" {
        var url := if part.thumbnailLarge != "" then part.thumbnailLarge else part.url;
        if url != "" {
          images := images + [url];
        }
      } else if part.text != "" {
        textParts := textParts + [part.text];
      }
    }
    assert segs[..|segs|] == segs;
    var joined := Strip(Concat(textParts));
    text := if joined != "" then joined else comment.value.commentText;
  }

  /** Python's `user.get("username") or user.get("email", default)`. */
  function Author(u: User, default: string): (r: string)
    ensures u.username != "" ==> r == u.username
    ensures u.username == "" && u.email.None? ==> r == default
    ensures u.username == "" && u.email.Some? ==> r == u.email.value
  {
    if u.username != "" then u.username else u.email.GetOr(default)
  }

  lemma {:induction false} ImageUrlsAppend(a: seq<Segment>, b: seq<Segment>)
    ensures ImageUrls(a + b) == ImageUrls(a) + ImageUrls(b)
    decreases |b|
  {
    if b != [] {
      var b' := b[..|b| - 1];
      assert (a + b)[..|a + b| - 1] == a + b';
      ImageUrlsAppend(a, b');
    } else {
      assert a + b == a;
    }
  }

  lemma {:induction false} TextPartsAppend(a: seq<Segment>, b: seq<Segment>)
    ensures TextParts(a + b) == TextParts(a) + TextParts(b)
    decreases |b|
  {
    if b != [] {
      var b' := b[..|b| - 1];
      assert (a + b)[..|a + b| - 1] == a + b';
      TextPartsAppend(a, b');
    } else {
      assert a + b == a;
    }
  }

  /**
   * The parse is compositional in segment order: the images and texts of a
   * comment are those of its first segments followed by those of the rest, and a
   * single segment contributes its URL if it is an image with one, its text if
   * it is not an image, and nothing else.
   */
  lemma SegmentsInOrder(a: seq<Segment>, b: seq<Segment>, s: Segment)
    ensures ImageUrls(a + b) == ImageUrls(a) + ImageUrls(b)
    ensures TextParts(a + b) == TextParts(a) + TextParts(b)
    ensures ImageUrls([s]) == (if IsImage(s) && ImageUrl(s) != "" then [ImageUrl(s)] else [])
    ensures TextParts([s]) == (if !IsImage(s) && s.text != "" then [s.text] else [])
  {
    ImageUrlsAppend(a, b);
    TextPartsAppend(a, b);
    assert [s][..0] == [];
  }

  /** A URL is returned exactly when some image segment carries it. */
  lemma {:induction false} ImageUrlsMembers(segs: seq<Segment>, u: string)
    ensures u in ImageUrls(segs) <==>
      exists i :: 0 <= i < |segs| && IsImage(segs[i]) && ImageUrl(segs[i]) == u && u != ""
  {
    if segs != [] {
      var init := segs[..|segs| - 1];
      ImageUrlsMembers(init, u);
      if exists i :: 0 <= i < |segs| && IsImage(segs[i]) && ImageUrl(segs[i]) == u && u != "" {
        var i :| 0 <= i < |segs| && IsImage(segs[i]) && ImageUrl(segs[i]) == u && u != "";
        if i < |init| {
          assert init[i] == segs[i];
        }
      }
      if u in ImageUrls(init) {
        var i :| 0 <= i < |init| && IsImage(init[i]) && ImageUrl(init[i]) == u && u != "";
        assert segs[i] == init[i];
      }
    }
  }

  /** Each image segment with a URL yields exactly one image. */
  lemma {:induction false} ImageCount(segs: seq<Segment>)
    ensures |ImageUrls(segs)| == ImagesWithUrl(segs)
    decreases |segs|
  {
    if segs != [] {
      ImageCount(segs[1..]);
      ImageUrlsAppend([segs[0]], segs[1..]);
      assert [segs[0]] + segs[1..] == segs;
      assert [segs[0]][..0] == [];
    }
  }

  lemma {:induction false} ImageOnlyHasNoText(segs: seq<Segment>)
    requires forall i :: 0 <= i < |segs| ==> IsImage(segs[i])
    ensures TextParts(segs) == []
    ensures |ImageUrls(segs)| == ImagesWithUrl(segs)
    ensures (forall i :: 0 <= i < |segs| ==> ImageUrl(segs[i]) != "") ==> |ImageUrls(segs)| == |segs|
  {
    ImageCount(segs);
    if segs != [] {
      ImageOnlyHasNoText(segs[..|segs| - 1]);
    }
  }

  /**
   * A comment made only of image segments has no segment text: its text is its
   * `comment_text`, and each image segment with a URL yields one image.
   */
  lemma ImageOnlyComment(c: Comment)
    requires forall i :: 0 <= i < |c.segments| ==> IsImage(c.segments[i])
    ensures ParsedText(Some(c)) == c.commentText
    ensures |ParsedImages(Some(c))| == ImagesWithUrl(c.segments)
    ensures (forall i :: 0 <= i < |c.segments| ==> ImageUrl(c.segments[i]) != "") ==>
            |ParsedImages(Some(c))| == |c.segments|
  {
    ImageOnlyHasNoText(c.segments);
  }

  /**
   * When the joined segment texts are all whitespace the text is `comment_text`
   * verbatim; otherwise it is the joined texts without surrounding whitespace.
   */
  lemma TextFallback(c: Comment)
    ensures AllSpace(Concat(TextParts(c.segments))) ==> ParsedText(Some(c)) == c.commentText
    ensures var joined := Concat(TextParts(c.segments));
      !AllSpace(joined) ==>
        var t := ParsedText(Some(c));
        t != "" && !IsSpace(t[0]) && !IsSpace(t[|t| - 1]) && exists lo :: StrippedAt(joined, t, lo)
  {
    var joined := Concat(TextParts(c.segments));
    var stripped := Strip(joined);
    assert ParsedText(Some(c)) == if stripped != "" then stripped else c.commentText;
  }

  /** A comment of one text segment with no surrounding whitespace parses to that text and no image. */
  lemma SingleTextSegment(c: Comment, text: string)
    requires c.segments == [Segment("text", text, "", "")]
    requires text != "" && !IsSpace(text[0]) && !IsSpace(text[|text| - 1])
    ensures ParsedText(Some(c)) == text && ParsedImages(Some(c)) == []
  {
    OneTextSegment(c.segments[0]);
    assert Concat([text]) == text by {
      assert [text][..0] == [];
    }
    StripUnchanged(text);
  }

  /** A lone non-image segment contributes its text and no image. */
  lemma OneTextSegment(seg: Segment)
    requires !IsImage(seg) && seg.text != ""
    ensures TextParts([seg]) == [seg.text] && ImageUrls([seg]) == []
  {
    assert [seg][..0] == [];
  }
}
