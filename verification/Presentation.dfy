/** The text the page shows about a session: the like counter, the gallery of liked
    images and the summary popup. Everything here is a pure function of the list of
    liked image URLs. */
module Presentation {

  /** True of a non-empty string of decimal digits. */
  predicate IsDecimal(s: string) {
    |s| > 0 && forall i :: 0 <= i < |s| ==> '0' <= s[i] <= '9'
  }

  function DigitChar(d: nat): (c: char)
    requires d < 10
    ensures '0' <= c <= '9'
  {
    ('0' as int + d) as char
  }

  function DigitValue(c: char): (d: nat)
    requires '0' <= c <= '9'
    ensures d < 10
  {
    c as int - '0' as int
  }

  /** The decimal text JavaScript produces when a non-negative integer is placed in a
      string or assigned to `textContent`. */
  function NatToString(n: nat): (r: string)
    ensures IsDecimal(r)
    ensures r[0] == '0' <==> n == 0
    decreases n
  {
    if n < 10 then [DigitChar(n)] else NatToString(n / 10) + [DigitChar(n % 10)]
  }

  /** Reads a string of decimal digits back as a number; the inverse of NatToString. */
  function ParseDecimal(s: string): nat
    requires forall i :: 0 <= i < |s| ==> '0' <= s[i] <= '9'
  {
    if s == [] then 0 else 10 * ParseDecimal(s[..|s| - 1]) + DigitValue(s[|s| - 1])
  }

  lemma {:induction false} ParseNatToString(n: nat)
    ensures ParseDecimal(NatToString(n)) == n
    decreases n
  {
    if n >= 10 {
      var prefix := NatToString(n / 10);
      var s := prefix + [DigitChar(n % 10)];
      assert s[..|s| - 1] == prefix;
      ParseNatToString(n / 10);
    }
  }

  /** Different counts never print the same. */
  lemma NatToStringInjective(m: nat, n: nat)
    requires NatToString(m) == NatToString(n)
    ensures m == n
  {
    ParseNatToString(m);
    ParseNatToString(n);
  }

  /** The two emoji that close the summary heading. */
  const CryingCat: string := "\U{1F63F}"
  const RedHeart: string := "\U{2764}\U{FE0F}"

  /** The summary heading for a number of liked cats: a fixed message for none, the
      singular noun for one and the plural for more. */
  function Heading(likes: nat): (h: string)
    ensures likes == 0 ==> h == "You liked 0 cat " + CryingCat
    ensures likes == 1 ==> h == "You liked 1 cat " + RedHeart
    ensures likes > 1 ==> h == "You liked " + NatToString(likes) + " cats " + RedHeart
  {
    if likes == 0 then "You liked 0 cat " + CryingCat
    else "You liked " + NatToString(likes) + " cat" + (if likes > 1 then "s" else "") + " " + RedHeart
  }

  /** Every heading is the fixed prefix, the count in decimal, then text that starts
      with a space. */
  lemma HeadingShape(likes: nat) returns (tail: string)
    ensures Heading(likes) == "You liked " + NatToString(likes) + tail
    ensures |tail| > 0 && tail[0] == ' '
  {
    if likes == 0 {
      tail := " cat " + CryingCat;
    } else if likes == 1 {
      tail := " cat " + RedHeart;
    } else {
      tail := " cats " + RedHeart;
    }
  }

  /** The heading determines the number of liked cats: two different counts never
      produce the same heading. */
  lemma HeadingInjective(m: nat, n: nat)
    requires Heading(m) == Heading(n)
    ensures m == n
  {
    var tm := HeadingShape(m);
    var tn := HeadingShape(n);
    var dm, dn := NatToString(m), NatToString(n);
    var h := Heading(m);
    var p := "You liked ";
    assert h == p + dm + tm;
    assert h == p + dn + tn;
    assert dm == h[|p|..|p| + |dm|] == dn;
    NatToStringInjective(m, n);
  }

  /** One image of the gallery of liked cats. */
  datatype Img = Img(src: string, alt: string)

  const ImageAlt: string := "Cat"

  /** The gallery of liked cats, rebuilt from scratch on every update. */
  function Gallery(liked: seq<string>): (g: seq<Img>)
    ensures |g| == |liked|
    ensures forall i :: 0 <= i < |g| ==> g[i].src == liked[i] && g[i].alt == ImageAlt
  {
    if liked == [] then [] else [Img(liked[0], ImageAlt)] + Gallery(liked[1..])
  }

  /** A gallery rebuilt after one more like is the old gallery with one image appended. */
  lemma GalleryAppend(liked: seq<string>, url: string)
    ensures Gallery(liked + [url]) == Gallery(liked) + [Img(url, ImageAlt)]
  {
  }

  const Encouragement: string := "Try swiping some cats next time!"

  datatype SummaryBody = Encourage(text: string) | LikedGallery(images: seq<Img>)

  /** The content of the end-of-session popup. */
  datatype Summary = Summary(heading: string, body: SummaryBody)

  /** The popup content for a list of liked cats: the heading always, then either a
      line of encouragement (nothing was liked) or the gallery of liked cats. */
  function SummaryOf(liked: seq<string>): (s: Summary)
    ensures s.heading == Heading(|liked|)
    ensures s.body.Encourage? <==> liked == []
    ensures s.body.Encourage? ==> s.body.text == Encouragement
    ensures s.body.LikedGallery? ==> |s.body.images| == |liked|
    ensures s.body.LikedGallery? ==> forall i :: 0 <= i < |liked| ==> s.body.images[i].src == liked[i]
  {
    if |liked| == 0 then Summary(Heading(0), Encourage(Encouragement))
    else Summary(Heading(|liked|), LikedGallery(Gallery(liked)))
  }

  /** The summary after five likes names the count in the plural and shows exactly
      the five liked cats in like order. */
  lemma FiveLikesSummary(liked: seq<string>)
    requires |liked| == 5
    ensures SummaryOf(liked).heading == "You liked 5 cats " + RedHeart
    ensures SummaryOf(liked).body == LikedGallery(Gallery(liked))
  {
    assert NatToString(5) == "5";
  }
}
