/**
 * components/VideoEmbed.tsx: the identifier extracted from a video URL, the
 * Shorts test, and what the component renders from them.
 */
module VideoEmbed {
  import opened Wrappers
  import opened JsStrings
  import opened RegExpMatch

  /** `/youtube\.com\/shorts\/([a-zA-Z0-9_-]{11})/` */
  const ShortsPattern := Pattern(["youtube.com/shorts/"], IdChar, Exactly(11))
  /** `/(?:youtube\.com\/watch\?v=|youtu\.be\/|youtube\.com\/embed\/)([a-zA-Z0-9_-]{11})/` */
  const WatchPattern := Pattern(["youtube.com/watch?v=", "youtu.be/", "youtube.com/embed/"], IdChar, Exactly(11))
  /** `/[?&]v=([a-zA-Z0-9_-]{11})/`; the class `[?&]` is written as two literal alternatives. */
  const ParamPattern := Pattern(["?v=", "&v="], IdChar, Exactly(11))
  /** The YouTube patterns in the order they are tried. */
  const YouTubePatterns := [ShortsPattern, WatchPattern, ParamPattern]
  /** `/video\/(\d+)/` */
  const TikTokPattern := Pattern(["video/"], Digit, OneOrMore)
  /** `/(?:reel|p)\/([a-zA-Z0-9_-]+)/` */
  const InstagramPattern := Pattern(["reel/", "p/"], IdChar, OneOrMore)
  /** `/@([^/]+)/`, the TikTok user name in the render branch */
  const UsernamePattern := Pattern(["@"], NotSlash, OneOrMore)

  /** `isYouTubeShorts`: the URL contains `/shorts/` somewhere. */
  function IsYouTubeShorts(url: string): (b: bool)
    ensures b <==> exists j :: 0 <= j <= |url| && HasPrefixAt(url, j, "/shorts/")
  {
    Includes(url, "/shorts/")
  }

  /** The `for (const pattern of patterns)` loop: the first pattern that matches anywhere decides. */
  function FirstMatching(patterns: seq<Pattern>, url: string): (r: Option<string>)
    ensures r.Some? ==> exists k :: 0 <= k < |patterns| && Match(patterns[k], url) == r
                                  && forall j :: 0 <= j < k ==> Match(patterns[j], url).None?
    ensures r.None? <==> forall q :: q in patterns ==> Match(q, url).None?
    decreases |patterns|
  {
    if |patterns| == 0 then None
    else
      match Match(patterns[0], url)
      case Some(id) => Some(id)
      case None =>
        var r := FirstMatching(patterns[1..], url);
        assert r.Some? ==> exists k :: 1 <= k < |patterns| && Match(patterns[k], url) == r
                                    && forall j :: 1 <= j < k ==> Match(patterns[j], url).None? by {
          if r.Some? {
            var k :| 0 <= k < |patterns[1..]| && Match(patterns[1..][k], url) == r
                     && forall j :: 0 <= j < k ==> Match(patterns[1..][j], url).None?;
            assert Match(patterns[k + 1], url) == r;
            forall j | 1 <= j < k + 1 ensures Match(patterns[j], url).None? {
              assert patterns[j] == patterns[1..][j - 1];
            }
          }
        }
        r
  }

  /**
   * `extractVideoId`. Nothing in the model can throw, so the `catch` that
   * turns an exception into `null` has nothing to catch.
   */
  function ExtractVideoId(platform: string, url: string): (r: Option<string>)
    ensures platform != "youtube" && platform != "tiktok" && platform != "instagram" ==> r.None?
    ensures platform == "youtube" && r.Some? ==> |r.value| == 11 && AllIn(IdChar, r.value)
    ensures platform == "tiktok" && r.Some? ==> |r.value| >= 1 && AllIn(Digit, r.value)
    ensures platform == "instagram" && r.Some? ==> |r.value| >= 1 && AllIn(IdChar, r.value)
  {
    if platform == "youtube" then FirstMatching(YouTubePatterns, url)
    else if platform == "tiktok" then Match(TikTokPattern, url)
    else if platform == "instagram" then Match(InstagramPattern, url)
    else None
  }

  // ---------------------------------------------------------------------------
  // Exact description of the identifier, per platform.

  lemma PatternsArePrefixFree()
    ensures PrefixFree(ShortsPattern.alternatives)
    ensures PrefixFree(WatchPattern.alternatives)
    ensures PrefixFree(ParamPattern.alternatives)
    ensures PrefixFree(TikTokPattern.alternatives)
    ensures PrefixFree(InstagramPattern.alternatives)
    ensures PrefixFree(UsernamePattern.alternatives)
  {
    var w := WatchPattern.alternatives;
    assert w[0][5] != w[1][5] && w[1][5] != w[2][5] && w[0][12] != w[2][12];
    assert "?v="[0] != "&v="[0];
    assert "reel/"[0] != "p/"[0];
  }

  /** A Shorts match anywhere wins, even when a `v=` parameter or a watch link comes earlier in the URL. */
  lemma YouTubeShortsFirst(url: string, i: nat)
    requires FirstAnchorAt(ShortsPattern, url, i, "youtube.com/shorts/")
    ensures ExtractVideoId("youtube", url) == Some(url[i + 19..i + 30])
  {
    PatternsArePrefixFree();
    MatchIsLeftmost(ShortsPattern, url, i, "youtube.com/shorts/");
  }

  /** Without a Shorts link, the leftmost watch, youtu.be or embed link gives the next 11 characters. */
  lemma YouTubeWatchSecond(url: string, i: nat, a: string)
    requires NoAnchor(ShortsPattern, url)
    requires FirstAnchorAt(WatchPattern, url, i, a)
    ensures ExtractVideoId("youtube", url) == Some(url[i + |a|..i + |a| + 11])
  {
    PatternsArePrefixFree();
    MatchNoneIff(ShortsPattern, url);
    MatchIsLeftmost(WatchPattern, url, i, a);
    var id := Match(WatchPattern, url).value;
    assert id == url[i + |a|..i + |a| + 11];
    assert YouTubePatterns[1..] == [WatchPattern, ParamPattern];
    assert FirstMatching([WatchPattern, ParamPattern], url) == Some(id);
  }

  /** Without either, the leftmost `?v=` or `&v=` followed by 11 id characters decides. */
  lemma YouTubeParamThird(url: string, i: nat, a: string)
    requires NoAnchor(ShortsPattern, url) && NoAnchor(WatchPattern, url)
    requires FirstAnchorAt(ParamPattern, url, i, a)
    ensures ExtractVideoId("youtube", url) == Some(url[i + 3..i + 14])
  {
    PatternsArePrefixFree();
    MatchNoneIff(ShortsPattern, url);
    MatchNoneIff(WatchPattern, url);
    MatchIsLeftmost(ParamPattern, url, i, a);
    var id := Match(ParamPattern, url).value;
    assert id == url[i + 3..i + 14];
    assert YouTubePatterns[1..] == [WatchPattern, ParamPattern];
    assert [WatchPattern, ParamPattern][1..] == [ParamPattern];
    assert FirstMatching([ParamPattern], url) == Some(id);
  }

  /** A YouTube URL has no identifier exactly when none of the three patterns occurs. */
  lemma YouTubeNotFound(url: string)
    ensures ExtractVideoId("youtube", url).None? <==>
              NoAnchor(ShortsPattern, url) && NoAnchor(WatchPattern, url) && NoAnchor(ParamPattern, url)
  {
    MatchNoneIff(ShortsPattern, url);
    MatchNoneIff(WatchPattern, url);
    MatchNoneIff(ParamPattern, url);
  }

  /** TikTok: the whole digit run after the leftmost `video/` that is followed by a digit. */
  lemma TikTokId(url: string, i: nat)
    requires FirstAnchorAt(TikTokPattern, url, i, "video/")
    ensures ExtractVideoId("tiktok", url).Some?
    ensures IsGroupCapture(url, i + 6, Digit, OneOrMore, ExtractVideoId("tiktok", url).value)
  {
    PatternsArePrefixFree();
    MatchIsLeftmost(TikTokPattern, url, i, "video/");
  }

  lemma TikTokNotFound(url: string)
    ensures ExtractVideoId("tiktok", url).None? <==> NoAnchor(TikTokPattern, url)
  {
    MatchNoneIff(TikTokPattern, url);
  }

  /** Instagram: the whole id run after the leftmost `reel/` or `p/` that is followed by an id character. */
  lemma InstagramId(url: string, i: nat, a: string)
    requires FirstAnchorAt(InstagramPattern, url, i, a)
    ensures ExtractVideoId("instagram", url).Some?
    ensures IsGroupCapture(url, i + |a|, IdChar, OneOrMore, ExtractVideoId("instagram", url).value)
  {
    PatternsArePrefixFree();
    MatchIsLeftmost(InstagramPattern, url, i, a);
  }

  lemma InstagramNotFound(url: string)
    ensures ExtractVideoId("instagram", url).None? <==> NoAnchor(InstagramPattern, url)
  {
    MatchNoneIff(InstagramPattern, url);
  }

  /** A URL matched by the Shorts pattern is also flagged as Shorts. */
  lemma ShortsMatchIsShortsUrl(url: string)
    requires Match(ShortsPattern, url).Some?
    ensures IsYouTubeShorts(url)
  {
    MatchNoneIff(ShortsPattern, url);
    var j, b :| 0 <= j <= |url| && b in ShortsPattern.alternatives && AnchorAt(ShortsPattern, url, j, b);
    assert url[j + 11..j + 19] == b[11..19] == "/shorts/";
    assert HasPrefixAt(url, j + 11, "/shorts/");
  }

  // ---------------------------------------------------------------------------
  // The render branch.

  const YouTubeEmbedBase := "https://www.youtube.com/embed/"
  const TikTokProfileBase := "https://www.tiktok.com/@"
  const InstagramReelBase := "https://www.instagram.com/reel/"

  /** What the component shows, without markup and styling. */
  datatype Embed =
    | InvalidUrl                                      // the "Invalid video URL" box
    | YouTubeFrame(src: string, vertical: bool)       // an iframe, in a 9:16 box for Shorts and 16:9 otherwise
    | TikTokQuote(cite: string, videoId: string, profile: string, username: string)
    | InstagramQuote(permalink: string)               // used for both the permalink attribute and the link
    | NoEmbed                                         // the final `return null`

  /** The TikTok user name: the text after the leftmost `@` up to the next `/`, else "user". */
  function TikTokUsername(url: string): (u: string)
    ensures |u| >= 1 && '/' !in u
  {
    Match(UsernamePattern, url).GetOr("user")
  }

  lemma TikTokUsernameFound(url: string, i: nat)
    requires FirstAnchorAt(UsernamePattern, url, i, "@")
    ensures IsGroupCapture(url, i + 1, NotSlash, OneOrMore, TikTokUsername(url))
  {
    PatternsArePrefixFree();
    MatchIsLeftmost(UsernamePattern, url, i, "@");
  }

  lemma TikTokUsernameDefault(url: string)
    requires NoAnchor(UsernamePattern, url)
    ensures TikTokUsername(url) == "user"
  {
    MatchNoneIff(UsernamePattern, url);
  }

  /**
   * The body of `VideoEmbed`. `!videoId` also treats the empty string as
   * missing; an extracted identifier is never empty, so only `null` takes
   * that branch, and an unknown platform never reaches the final `null`.
   */
  function Render(platform: string, videoUrl: string): (e: Embed)
    ensures e.InvalidUrl? <==> ExtractVideoId(platform, videoUrl).None?
    ensures !e.NoEmbed?
    ensures e.YouTubeFrame? ==> platform == "youtube" && e.vertical == IsYouTubeShorts(videoUrl)
    ensures e.TikTokQuote? ==> platform == "tiktok" && e.cite == videoUrl
    ensures e.InstagramQuote? ==> platform == "instagram"
  {
    var videoId := ExtractVideoId(platform, videoUrl);
    if videoId.None? || videoId.value == "" then InvalidUrl
    else if platform == "youtube" then
      YouTubeFrame(YouTubeEmbedBase + videoId.value, IsYouTubeShorts(videoUrl))
    else if platform == "tiktok" then
      var username := TikTokUsername(videoUrl);
      TikTokQuote(videoUrl, videoId.value, TikTokProfileBase + username, username)
    else if platform == "instagram" then
      InstagramQuote(InstagramReelBase + videoId.value + "/")
    else NoEmbed
  }

  /**
   * Every embed address is its base followed by the identifier (and, for
   * Instagram, a closing `/`), so the identifier can be read back from it;
   * the TikTok profile link is its base followed by the extracted user name.
   */
  lemma EmbedCarriesId(platform: string, videoUrl: string)
    ensures ExtractVideoId(platform, videoUrl).Some? ==>
      var id := ExtractVideoId(platform, videoUrl).value;
      match Render(platform, videoUrl)
      case YouTubeFrame(src, _) => src == YouTubeEmbedBase + id && src[|YouTubeEmbedBase|..] == id
      case TikTokQuote(_, videoId, profile, username) =>
        videoId == id && username == TikTokUsername(videoUrl)
        && profile == TikTokProfileBase + username && profile[|TikTokProfileBase|..] == username
      case InstagramQuote(permalink) =>
        permalink == InstagramReelBase + id + "/"
        && permalink[|InstagramReelBase|..|permalink| - 1] == id
      case _ => false
  {
  }

  // ---------------------------------------------------------------------------
  // Examples.

  /**
   * A Shorts link after a prefix holding no `y`: its identifier is extracted,
   * whatever `?v=` or `&v=` parameters the prefix holds, and the URL is a Shorts
   * URL. (Such a prefix holds no watch link, as every watch literal starts with
   * `y`; the general precedence is `YouTubeShortsFirst`.)
   */
  lemma ShortsAfterPrefix(pre: string, id: string, url: string)
    requires 'y' !in pre
    requires |id| == 11 && AllIn(IdChar, id)
    requires url == pre + "youtube.com/shorts/" + id
    ensures ExtractVideoId("youtube", url) == Some(id)
    ensures IsYouTubeShorts(url)
  {
    var head := pre + "youtube.com/shorts/";
    assert url == head + id && |head| == |pre| + 19;
    assert url[|head|..|head| + 11] == id;
    FirstAnchorAfter(ShortsPattern, pre, "youtube.com/shorts/", id);
    YouTubeShortsFirst(url, |pre|);
    PatternsArePrefixFree();
    MatchIsLeftmost(ShortsPattern, url, |pre|, "youtube.com/shorts/");
    ShortsMatchIsShortsUrl(url);
  }

  /** `https://www.youtube.com/shorts/<id>` gives `<id>` and is shown as a Shorts video. */
  lemma ShortsUrlExample(id: string, url: string)
    requires |id| == 11 && AllIn(IdChar, id)
    requires url == "https://www." + "youtube.com/shorts/" + id
    ensures ExtractVideoId("youtube", url) == Some(id)
    ensures IsYouTubeShorts(url)
  {
    assert 'y' !in "https://www.";
    ShortsAfterPrefix("https://www.", id, url);
  }

  /** A Shorts link further right still beats a `?v=` parameter near the start of the URL. */
  lemma ShortsBeatsEarlierParamExample(id: string, url: string)
    requires |id| == 11 && AllIn(IdChar, id)
    requires url == "https://example.com/?v=AAAAAAAAAAA&next=" + "youtube.com/shorts/" + id
    ensures ExtractVideoId("youtube", url) == Some(id)
  {
    assert 'y' !in "https://example.com/?v=AAAAAAAAAAA&next=";
    ShortsAfterPrefix("https://example.com/?v=AAAAAAAAAAA&next=", id, url);
  }

  lemma ShortLinkAnchored(run: string, url: string)
    requires |run| >= 11 && AllIn(IdChar, run)
    requires url == "https://" + "youtu.be/" + run
    ensures FirstAnchorAt(WatchPattern, url, 8, "youtu.be/") && url[17..28] == run[..11]
  {
    assert 'y' !in "https://";
    assert forall b :: b in WatchPattern.alternatives ==> b[0] == 'y';
    FirstAnchorAfter(WatchPattern, "https://", "youtu.be/", run);
  }

  lemma ShortLinkHasNoShorts(run: string, url: string)
    requires AllIn(IdChar, run)
    requires url == "https://" + "youtu.be/" + run
    ensures NoAnchor(ShortsPattern, url)
  {
    var b := "youtube.com/shorts/";
    assert ShortsPattern.alternatives == [b];
    forall j | 0 <= j <= |url| ensures !HasPrefixAt(url, j, b) {
      if j + 19 <= |url| {
        var w := url[j..j + 19];
        if j < 8 {
          assert w[0] == url[j] == "https://"[j] && "https://"[j] in "https://";
          assert w[0] != b[0];
        } else if j == 8 {
          assert w[5] == url[13] == '.';
          assert w[5] != b[5];
        } else if j < 17 {
          assert w[0] == url[j] == "youtu.be/"[j - 8] && "youtu.be/"[j - 8] != 'y';
          assert w[0] != b[0];
        } else {
          assert w[7] == url[j + 7] == run[j - 10];
          assert w[7] != b[7];
        }
      }
    }
  }

  /** A short link holds no `/shorts/`: its only slashes are the three of `https://` and `youtu.be/`. */
  lemma ShortLinkIsNotShorts(run: string, url: string)
    requires |run| >= 11 && AllIn(IdChar, run)
    requires url == "https://" + "youtu.be/" + run
    ensures !IsYouTubeShorts(url)
  {
    var b := "/shorts/";
    var head := "https://youtu.be/";
    assert url == head + run;
    forall j | 0 <= j <= |url| ensures !HasPrefixAt(url, j, b) {
      if j + 8 <= |url| {
        var w := url[j..j + 8];
        if j == 6 {
          assert w[1] == url[7] == '/';
        } else if j == 7 {
          assert w[1] == url[8] == 'y';
        } else if j == 16 {
          assert w[7] == url[23] == run[6];
          assert InClass(IdChar, run[6]);
        } else if j < 17 {
          assert w[0] == url[j] == head[j];
        } else {
          assert w[0] == url[j] == run[j - 17];
          assert InClass(IdChar, run[j - 17]);
        }
      }
    }
  }

  /**
   * `https://youtu.be/<id>` gives `<id>`; id characters beyond the eleventh
   * are cut off, and the video is shown in the horizontal frame.
   */
  lemma ShortLinkExample(run: string, url: string)
    requires |run| >= 11 && AllIn(IdChar, run)
    requires url == "https://" + "youtu.be/" + run
    ensures ExtractVideoId("youtube", url) == Some(run[..11])
    ensures Render("youtube", url) == YouTubeFrame(YouTubeEmbedBase + run[..11], false)
  {
    ShortLinkAnchored(run, url);
    ShortLinkHasNoShorts(run, url);
    YouTubeWatchSecond(url, 8, "youtu.be/");
    ShortLinkIsNotShorts(run, url);
  }

  /**
   * In `https://www.tiktok.com/@<user>/video/<digits>` no `video/` followed by
   * a digit starts before the one after the user name: an earlier `video/`
   * would need a `v` in the host, a `/` inside the user name or inside
   * `video`, or a digit where the `v` of `video/` stands.
   */
  lemma TikTokUrlAnchored(user: string, digits: string, pre: string, url: string)
    requires |user| >= 1 && '/' !in user
    requires |digits| >= 1 && AllIn(Digit, digits)
    requires pre == "https://www.tiktok.com/@" + user + "/"
    requires url == pre + "video/" + digits
    ensures FirstAnchorAt(TikTokPattern, url, |pre|, "video/")
    ensures IsGroupCapture(url, |pre| + 6, Digit, OneOrMore, digits)
  {
    var host := "https://www.tiktok.com/@";
    var b := "video/";
    assert 'v' !in host;
    assert TikTokPattern.alternatives == [b];
    assert url == host + user + "/" + b + digits;
    assert |pre| == 25 + |user|;
    assert url[|pre|..|pre| + 6] == b;
    assert url[|pre| + 6..] == digits;
    assert url[|pre| + 6] == digits[0];
    forall j | 0 <= j < |pre| ensures !AnchorAt(TikTokPattern, url, j, b) {
      if j + 6 <= |url| {
        var w := url[j..j + 6];
        if j < 19 {
          assert w[0] == url[j] == host[j] && host[j] in host;
        } else if j + 5 < 24 + |user| {
          assert w[5] == url[j + 5] == user[j + 5 - 24] && user[j + 5 - 24] in user;
        } else if j + 5 == 24 + |user| {
          assert url[j + 6] == url[|pre|] == 'v';
        } else {
          assert w[5] == url[j + 5] == b[j + 5 - |pre|];
        }
      }
    }
    forall t | |pre| + 6 <= t < |url| ensures InClass(Digit, url[t]) {
      assert url[t] == digits[t - |pre| - 6];
    }
  }

  /** `https://www.tiktok.com/@<user>/video/<digits>` gives `<digits>`, for any user name. */
  lemma TikTokUrlExample(user: string, digits: string, url: string)
    requires |user| >= 1 && '/' !in user
    requires |digits| >= 1 && AllIn(Digit, digits)
    requires url == "https://www.tiktok.com/@" + user + "/" + "video/" + digits
    ensures ExtractVideoId("tiktok", url) == Some(digits)
  {
    var pre := "https://www.tiktok.com/@" + user + "/";
    TikTokUrlAnchored(user, digits, pre, url);
    TikTokId(url, |pre|);
    GreedyCaptureUnique(url, |pre| + 6, Digit, digits, ExtractVideoId("tiktok", url).value);
  }

  lemma TikTokUserAnchored(user: string, rest: string, host: string, url: string)
    requires |user| >= 1 && '/' !in user
    requires host == "https://www.tiktok.com/"
    requires url == host + "@" + (user + "/" + rest)
    ensures FirstAnchorAt(UsernamePattern, url, |host|, "@")
    ensures IsGroupCapture(url, |host| + 1, NotSlash, OneOrMore, user)
  {
    assert '@' !in host;
    assert (user + "/" + rest)[0] == user[0];
    FirstAnchorAfter(UsernamePattern, host, "@", user + "/" + rest);
    var j := |host| + 1;
    assert url[j..j + |user|] == user && url[j + |user|] == '/';
    assert forall k :: 0 <= k < |user| ==> user[k] in user;
  }

  /**
   * `https://www.tiktok.com/@<user>/video/<digits>` renders a quote of that
   * URL for video `<digits>`, whose profile link is `https://www.tiktok.com/@<user>`.
   */
  lemma TikTokUserExample(user: string, digits: string, url: string)
    requires |user| >= 1 && '/' !in user
    requires |digits| >= 1 && AllIn(Digit, digits)
    requires url == "https://www.tiktok.com/@" + user + "/" + "video/" + digits
    ensures TikTokUsername(url) == user
    ensures Render("tiktok", url) == TikTokQuote(url, digits, "https://www.tiktok.com/@" + user, user)
  {
    assert url == "https://www.tiktok.com/" + "@" + (user + "/" + ("video/" + digits));
    TikTokUserAnchored(user, "video/" + digits, "https://www.tiktok.com/", url);
    TikTokUsernameFound(url, 23);
    GreedyCaptureUnique(url, 24, NotSlash, user, TikTokUsername(url));
    TikTokUrlExample(user, digits, url);
  }

  /** A TikTok profile URL, without `video/<digits>`, has no identifier. */
  lemma TikTokProfileExample()
    ensures ExtractVideoId("tiktok", "https://www.tiktok.com/@user") == None
  {
    var url := "https://www.tiktok.com/@user";
    assert 'v' !in url;
    forall j, b | 0 <= j <= |url| && b in TikTokPattern.alternatives ensures !AnchorAt(TikTokPattern, url, j, b) {
      if j < |url| {
        assert url[j] in url;
      }
    }
    TikTokNotFound(url);
  }

  /** The only `p` and `r` of the Instagram host are at 3 and 18, followed by `s` and `a`. */
  lemma InstagramHostLetters(host: string)
    requires host == "https://www.instagram.com/"
    ensures |host| == 26 && host[3] == 'p' && host[4] == 's' && host[18] == 'r' && host[19] == 'a'
    ensures forall j :: 0 <= j < 26 && j != 3 && j != 18 ==> host[j] != 'p' && host[j] != 'r'
  {
    assert host == "htt" + "p" + "s://www.instag" + "r" + "am.com/";
    forall j | 0 <= j < 3 ensures host[j] != 'p' && host[j] != 'r' {
      assert host[j] == "htt"[j] && "htt"[j] in "htt";
    }
    forall j | 4 <= j < 18 ensures host[j] != 'p' && host[j] != 'r' {
      assert host[j] == "s://www.instag"[j - 4] && "s://www.instag"[j - 4] in "s://www.instag";
    }
    forall j | 19 <= j < 26 ensures host[j] != 'p' && host[j] != 'r' {
      assert host[j] == "am.com/"[j - 19] && "am.com/"[j - 19] in "am.com/";
    }
  }

  /** Neither `reel/` nor `p/` starts inside `https://www.instagram.com/`. */
  lemma InstagramHostHasNoAnchor(url: string)
    requires |url| >= 26 && url[..26] == "https://www.instagram.com/"
    ensures forall j, b :: 0 <= j < 26 && b in InstagramPattern.alternatives ==> !AnchorAt(InstagramPattern, url, j, b)
  {
    var host := url[..26];
    InstagramHostLetters(host);
    forall j | 0 <= j < 26 ensures !HasPrefixAt(url, j, "reel/") {
      if j + 5 <= |url| {
        var w := url[j..j + 5];
        if j == 18 {
          assert w[1] == url[19] == host[19];
        } else {
          assert w[0] == url[j] == host[j];
        }
      }
    }
    forall j | 0 <= j < 26 ensures !HasPrefixAt(url, j, "p/") {
      if j + 2 <= |url| {
        var w := url[j..j + 2];
        if j == 3 {
          assert w[1] == url[4] == host[4];
        } else {
          assert w[0] == url[j] == host[j];
        }
      }
    }
  }

  lemma InstagramUrlAnchored(kind: string, id: string, url: string)
    requires kind == "reel/" || kind == "p/"
    requires |id| >= 1 && AllIn(IdChar, id)
    requires url == "https://www.instagram.com/" + kind + (id + "/")
    ensures FirstAnchorAt(InstagramPattern, url, 26, kind)
    ensures IsGroupCapture(url, 26 + |kind|, IdChar, OneOrMore, id)
  {
    assert url[..26] == "https://www.instagram.com/";
    InstagramHostHasNoAnchor(url);
    assert url[26..26 + |kind|] == kind;
    assert url[26 + |kind|] == id[0];
    assert url[26 + |kind|..26 + |kind| + |id|] == id;
    assert url[26 + |kind| + |id|] == '/';
  }

  /**
   * `https://www.instagram.com/reel/<id>/` and `https://www.instagram.com/p/<id>/`
   * both give `<id>`, and both are embedded through the `/reel/<id>/` permalink.
   */
  lemma InstagramUrlExample(kind: string, id: string, url: string)
    requires kind == "reel/" || kind == "p/"
    requires |id| >= 1 && AllIn(IdChar, id)
    requires url == "https://www.instagram.com/" + kind + (id + "/")
    ensures ExtractVideoId("instagram", url) == Some(id)
    ensures Render("instagram", url) == InstagramQuote("https://www.instagram.com/reel/" + id + "/")
  {
    InstagramUrlAnchored(kind, id, url);
    InstagramId(url, 26, kind);
    GreedyCaptureUnique(url, 26 + |kind|, IdChar, id, ExtractVideoId("instagram", url).value);
  }
}

