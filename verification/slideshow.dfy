/**
 * `generate_slideshow`: the HTML strip of a photo slideshow, one inline JPEG
 * image tag per base64-encoded photo, in the order given.
 */
module Slideshow {
  import opened Text

  const Opening: string := "<div class=\"slideshow\"><div class=\"slides\">"
  const Closing: string := "</div></div>"

  const TagHead: string := "<img src=\"data:image/jpeg;base64,"
  const TagTail: string := "\">"

  /** The inline JPEG image tag for one base64-encoded photo. */
  function ImageTag(encoded: string): string
  {
    TagHead + encoded + TagTail
  }

  /** The image tags, concatenated. */
  function ImagesHtml(images: seq<string>): string
  {
    if |images| == 0 then "" else ImageTag(images[0]) + ImagesHtml(images[1..])
  }

  /** The slideshow markup; it is always wrapped in the opening and closing markup. */
  function GenerateSlideshow(images: seq<string>): (html: string)
    ensures StartsWith(html, Opening)
    ensures |html| >= |Opening| + |Closing| && html[|html| - |Closing|..] == Closing
  {
    Opening + ImagesHtml(images) + Closing
  }

  /** The tags of two runs of images, one after the other. */
  lemma {:induction false} ImagesHtmlAppend(a: seq<string>, b: seq<string>)
    ensures ImagesHtml(a + b) == ImagesHtml(a) + ImagesHtml(b)
    decreases |a|
  {
    if |a| == 0 {
      assert a + b == b;
    } else {
      ImagesHtmlAppend(a[1..], b);
      var tag := ImageTag(a[0]);
      assert ImagesHtml(a + b) == tag + ImagesHtml(a[1..] + b) by {
        assert (a + b)[0] == a[0] && (a + b)[1..] == a[1..] + b;
      }
      ConcatAssociates(tag, ImagesHtml(a[1..]), ImagesHtml(b));
    }
  }

  /**
   * The tag of the k-th photo stands in the slideshow right after the opening
   * markup and the tags of the photos before it, so the photos appear in order.
   */
  lemma ImageInPlace(images: seq<string>, k: nat)
    requires k < |images|
    ensures OccursAt(GenerateSlideshow(images), ImageTag(images[k]), |Opening| + |ImagesHtml(images[..k])|)
  {
    var tag := ImageTag(images[k]);
    var rest := ImagesHtml(images[k + 1..]);
    assert ImagesHtml(images) == ImagesHtml(images[..k]) + tag + rest by {
      assert images == images[..k] + ([images[k]] + images[k + 1..]);
      ImagesHtmlAppend(images[..k], [images[k]] + images[k + 1..]);
      assert ([images[k]] + images[k + 1..])[1..] == images[k + 1..];
    }
    var before := Opening + ImagesHtml(images[..k]);
    assert GenerateSlideshow(images) == before + tag + (rest + Closing) by {
      Regroup(Opening, ImagesHtml(images[..k]), tag, rest, Closing);
    }
    OccursInMiddle(before, tag, rest + Closing);
  }

  lemma ConcatAssociates(x: string, y: string, z: string)
    ensures x + (y + z) == (x + y) + z
  {
  }

  lemma Regroup(o: string, p: string, t: string, r: string, c: string)
    ensures o + (p + t + r) + c == (o + p) + t + (r + c)
  {
  }

  /** The middle part of a three-part concatenation occurs right after the first part. */
  lemma OccursInMiddle(a: string, b: string, c: string)
    ensures OccursAt(a + b + c, b, |a|)
  {
    assert (a + b + c)[|a|..|a| + |b|] == b;
  }

  /** The slideshow is the fixed opening and closing markup around exactly the image tags. */
  lemma {:induction false} SlideshowFrame(images: seq<string>)
    ensures var html := GenerateSlideshow(images);
            && StartsWith(html, Opening)
            && html[|html| - |Closing|..] == Closing
            && |html| == |Opening| + |Closing| + |ImagesHtml(images)|
            && html[|Opening|..|html| - |Closing|] == ImagesHtml(images)
  {
    var html := GenerateSlideshow(images);
    assert html == Opening + ImagesHtml(images) + Closing;
  }
}
