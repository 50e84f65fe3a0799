/**
 * The artist and album the CDDB information report prints, split out of
 * the disc title, which CDDB writes as "artist / album".
 */
module Report {
  import opened Text

  /** The album part: the text after the slash without the one space that
      follows it; "-" when there is no slash or only a space after it. */
  function Album(rest: Option<string>): string
  {
    match rest
    case None => "-"
    case Some(r) => if r != [] && r[0] == ' ' then (if |r| > 1 then r[1..] else "-") else r
  }

  /**
   * strsep(&title, "/") and what follows it: the artist is the text
   * before the first slash without one trailing space, the album the text
   * after it. The title must not start with a slash, since the artist's
   * last character is looked at.
   */
  function SplitDiscTitle(title: string): (r: (string, string))
    requires title != [] && title[0] != '/'
    ensures '/' !in r.0
    ensures '/' !in title ==> r.1 == "-"
  {
    var k := FirstIndexOf(title, '/');
    var raw := title[..k];
    var artist := if raw[|raw| - 1] == ' ' then raw[..|raw| - 1] else raw;
    (artist, Album(if k < |title| then Some(title[k + 1..]) else None))
  }

  /** An "artist / album" title splits back into its artist and album. */
  lemma SplitRoundTrip(artist: string, album: string)
    requires '/' !in artist && album != []
    ensures var t := artist + " / " + album;
            t != [] && t[0] != '/' && SplitDiscTitle(t) == (artist, album)
  {
    var t := artist + " / " + album;
    assert t[..|artist| + 1] == artist + " ";
    assert t[|artist| + 1] == '/';
    assert t[|artist| + 2..] == " " + album;
    assert (artist + " ")[..|artist|] == artist;
  }

  /** A title without a slash names the artist only. */
  lemma ArtistOnly(title: string)
    requires title != [] && title[0] != '/' && '/' !in title && title[|title| - 1] != ' '
    ensures SplitDiscTitle(title) == (title, "-")
  {
    assert title[..|title|] == title;
  }

  /** A title ending in its slash, or a slash and one space, has no album. */
  lemma EmptyAlbum(artist: string)
    requires artist != [] && artist[0] != '/' && '/' !in artist && artist[|artist| - 1] != ' '
    ensures SplitDiscTitle(artist + "/") == (artist, "")
    ensures SplitDiscTitle(artist + "/ ") == (artist, "-")
  {
    var t := artist + "/";
    assert t[..|artist|] == artist && t[|artist|] == '/' && t[|artist| + 1..] == "";
    var u := artist + "/ ";
    assert u[..|artist|] == artist && u[|artist|] == '/' && u[|artist| + 1..] == " ";
  }
}
