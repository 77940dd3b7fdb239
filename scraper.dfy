/**
 * The page scraper (scraper.py): given a rendered Facebook page, pick the
 * profile picture through an ordered chain of three lookups and emit the
 * record `{username, page_name, profile_pic}`.
 *
 * The browser is not modelled. A rendered page is what the three attribute
 * lookups on it produce, plus its title.
 */
module Scraper {
  import opened Wrappers
  import opened Documents

  /**
   * The outcome of one `locator(...).get_attribute(...)` attempt: it raised
   * (a selector timeout, no match, an ambiguous match), or it returned the
   * attribute, which may be absent (`None`) or empty.
   */
  datatype Probe = Raised | Attribute(value: Option<string>)

  /** A rendered page, seen through the three profile-picture lookups and its title. */
  datatype RenderedPage = RenderedPage(
    svgImageHref: Probe,     // `g image`, attribute `xlink:href`
    ogImageContent: Probe,   // `meta[property='og:image']`, attribute `content`
    profileImgSrc: Probe,    // `img[alt*='profile']`, attribute `src`
    title: string)           // `page.title()`

  /** The value `profile_pic` takes when no lookup yields one. */
  const PicNotFound: string := "Profile pic not found"

  /** Python truthiness of an optional string: neither `None` nor empty. */
  predicate Truthy(v: Option<string>) {
    v.Some? && v.value != ""
  }

  /** The probe produced a truthy attribute value. */
  predicate Yields(p: Probe) {
    p.Attribute? && Truthy(p.value)
  }

  /** The lookups in the order the scraper tries them. */
  function Chain(page: RenderedPage): (probes: seq<Probe>)
    ensures |probes| == 3
  {
    [page.svgImageHref, page.ogImageContent, page.profileImgSrc]
  }

  /**
   * The value of the first probe that yields a truthy attribute, or `None`
   * when none does.
   */
  function FirstTruthy(probes: seq<Probe>): (r: Option<string>)
    ensures r.Some? <==> exists i :: 0 <= i < |probes| && Yields(probes[i])
    ensures r.Some? ==> r.value != ""
  {
    if |probes| == 0 then None
    else if Yields(probes[0]) then probes[0].value
    else
      var rest := FirstTruthy(probes[1..]);
      assert forall i :: 1 <= i < |probes| ==> probes[i] == probes[1..][i - 1];
      rest
  }

  /** The first yielding probe decides: every probe before it is ignored, every probe after it is never consulted. */
  lemma {:induction false} FirstTruthyAt(probes: seq<Probe>, k: nat)
    requires k < |probes| && Yields(probes[k])
    requires forall j :: 0 <= j < k ==> !Yields(probes[j])
    ensures FirstTruthy(probes) == probes[k].value
  {
    if k > 0 {
      assert forall j :: 0 <= j < k - 1 ==> probes[1..][j] == probes[j + 1];
      FirstTruthyAt(probes[1..], k - 1);
    }
  }

  /** The profile picture the chain settles on, with the sentinel when every lookup fails. */
  function ProfilePic(page: RenderedPage): (pic: string)
    ensures pic != ""
    ensures pic == PicNotFound <==> (FirstTruthy(Chain(page)) == None || FirstTruthy(Chain(page)) == Some(PicNotFound))
  {
    match FirstTruthy(Chain(page))
    case Some(v) => v
    case None => PicNotFound
  }

  /** The record the scraper prints as JSON. */
  function Emitted(username: string, page: RenderedPage): (d: Document)
    ensures d.Keys == {"username", "page_name", "profile_pic"}
    ensures d["username"] == Str(username) && d["page_name"] == Str(page.title)
    ensures d["profile_pic"].Str? && d["profile_pic"].s != ""
  {
    map["username" := Str(username), "page_name" := Str(page.title), "profile_pic" := Str(ProfilePic(page))]
  }

  /** A truthy `xlink:href` on the SVG image wins outright. */
  lemma SvgImageWins(page: RenderedPage)
    requires Yields(page.svgImageHref)
    ensures ProfilePic(page) == page.svgImageHref.value.value
  {
    FirstTruthyAt(Chain(page), 0);
  }

  /** Otherwise a truthy `og:image` content wins, whatever the profile `img` holds. */
  lemma OgImageSecond(page: RenderedPage)
    requires !Yields(page.svgImageHref) && Yields(page.ogImageContent)
    ensures ProfilePic(page) == page.ogImageContent.value.value
  {
    FirstTruthyAt(Chain(page), 1);
  }

  /** Otherwise a truthy `src` on the profile `img` wins. */
  lemma ProfileImgThird(page: RenderedPage)
    requires !Yields(page.svgImageHref) && !Yields(page.ogImageContent) && Yields(page.profileImgSrc)
    ensures ProfilePic(page) == page.profileImgSrc.value.value
  {
    FirstTruthyAt(Chain(page), 2);
  }

  /** When every lookup raises, returns nothing or returns "", the sentinel is used. */
  lemma SentinelWhenAllFail(page: RenderedPage)
    requires !Yields(page.svgImageHref) && !Yields(page.ogImageContent) && !Yields(page.profileImgSrc)
    ensures ProfilePic(page) == PicNotFound
  {
  }

  /** A lookup that raises behaves exactly like one that finds nothing. */
  lemma RaisedIsAbsent(page: RenderedPage, q: RenderedPage)
    requires q.title == page.title
    requires q.svgImageHref == (if page.svgImageHref.Raised? then Attribute(None) else page.svgImageHref)
    requires q.ogImageContent == (if page.ogImageContent.Raised? then Attribute(None) else page.ogImageContent)
    requires q.profileImgSrc == (if page.profileImgSrc.Raised? then Attribute(None) else page.profileImgSrc)
    ensures ProfilePic(q) == ProfilePic(page)
  {
    assert forall i :: 0 <= i < 3 ==> (Yields(Chain(q)[i]) <==> Yields(Chain(page)[i]));
    if Yields(page.svgImageHref) {
      SvgImageWins(page); SvgImageWins(q);
    } else if Yields(page.ogImageContent) {
      OgImageSecond(page); OgImageSecond(q);
    } else if Yields(page.profileImgSrc) {
      ProfileImgThird(page); ProfileImgThird(q);
    } else {
      SentinelWhenAllFail(page); SentinelWhenAllFail(q);
    }
  }

  /**
   * run_scraper, once the page has loaded: `profile_pic` starts as `None`;
   * each later lookup runs only while it is still falsy, and a lookup that
   * raises leaves it as it was; a falsy result falls back to the sentinel.
   */
  method RunScraper(username: string, page: RenderedPage) returns (record: Document)
    ensures record == Emitted(username, page)
  {
    var profilePic: Option<string> := None;
    if page.svgImageHref.Attribute? {
      profilePic := page.svgImageHref.value;
    }

    if !Truthy(profilePic) {
      if page.ogImageContent.Attribute? {
        profilePic := page.ogImageContent.value;
      }
    }

    if !Truthy(profilePic) {
      if page.profileImgSrc.Attribute? {
        profilePic := page.profileImgSrc.value;
      }
    }

    var pic: string;
    if Truthy(profilePic) {
      pic := profilePic.value;
    } else {
      pic := PicNotFound;
    }

    if Yields(page.svgImageHref) {
      SvgImageWins(page);
    } else if Yields(page.ogImageContent) {
      OgImageSecond(page);
    } else if Yields(page.profileImgSrc) {
      ProfileImgThird(page);
    } else {
      SentinelWhenAllFail(page);
    }

    var pageName := page.title;
    record := map["username" := Str(username), "page_name" := Str(pageName), "profile_pic" := Str(pic)];
  }
}
