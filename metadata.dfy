/** The metadata records of src/tiktok.rs and `TikTok::from`, with the HTTP
    request and the JSON decoding taken out: the decoded `ApiResponse` (or the
    failure to get one) is an input. */
module Metadata {
  import opened Basics

  /** `VideoAuthor`: `nickname`, `unique_id` and `avatar_uri` of the feed. */
  datatype VideoAuthor = VideoAuthor(name: string, username: string, avatarUri: string)

  /** `VideoStatistics`: `digg_count`, `comment_count` and `play_count`. */
  datatype VideoStatistics = VideoStatistics(likes: u32, comments: u32, views: u32)

  /** The record handed to the reply. */
  datatype TikTok = TikTok(description: string, videoUrl: string, author: VideoAuthor, statistics: VideoStatistics)

  /** The decoded feed envelope and its parts. */
  datatype PlayAddr = PlayAddr(urlList: seq<string>)
  datatype ApiVideo = ApiVideo(playAddr: PlayAddr)
  datatype Aweme = Aweme(id: string, desc: string, author: VideoAuthor, video: ApiVideo, statistics: VideoStatistics)
  datatype ApiResponse = ApiResponse(awemeList: seq<Aweme>)

  /** Why `from` gives no record. `EmptyAwemeList` and `EmptyUrlList` stand
      for the two unchecked `[0]` indexings, where the program panics instead
      of returning an error. */
  datatype FromError = FetchFailed | NotFound | EmptyAwemeList | EmptyUrlList

  /** The error kinds that are a panic in the program rather than an `Err`. */
  predicate IsPanic(e: FromError)
  {
    e == EmptyAwemeList || e == EmptyUrlList
  }

  const FeedEndpoint := "https://api2.musical.ly/aweme/v1/feed/?aweme_id="

  /** The metadata request URL for a video id. */
  function FeedUrl(id: string): (r: string)
    ensures |r| == |FeedEndpoint| + |id|
    ensures r[..|FeedEndpoint|] == FeedEndpoint && r[|FeedEndpoint|..] == id
  {
    FeedEndpoint + id
  }

  /** Different ids are never sent as the same request. */
  lemma FeedUrlInjective(a: string, b: string)
    ensures FeedUrl(a) == FeedUrl(b) ==> a == b
  {
    if FeedUrl(a) == FeedUrl(b) {
      assert a == FeedUrl(a)[|FeedEndpoint|..];
    }
  }

  /** Picks the record out of a decoded envelope: only the first entry is
      looked at; its id must be the requested one; the first playable URL
      becomes the video URL. The first entry is indexed before the id check
      and the URL list only after it, so a mismatched entry with no URLs is
      `NotFound`. */
  function Select(id: string, resp: ApiResponse): (r: Result<TikTok, FromError>)
    ensures r == Err(EmptyAwemeList) <==> resp.awemeList == []
    ensures r == Err(NotFound) <==> resp.awemeList != [] && resp.awemeList[0].id != id
    ensures r == Err(EmptyUrlList) <==>
      resp.awemeList != [] && resp.awemeList[0].id == id && resp.awemeList[0].video.playAddr.urlList == []
    ensures r.Ok? ==> resp.awemeList != [] && resp.awemeList[0].id == id
    ensures r.Ok? ==>
      var first := resp.awemeList[0];
      && first.video.playAddr.urlList != []
      && r.value.videoUrl == first.video.playAddr.urlList[0]
      && r.value.description == first.desc
      && r.value.author == first.author
      && r.value.statistics == first.statistics
    ensures r != Err(FetchFailed)
  {
    if resp.awemeList == [] then
      Err(EmptyAwemeList)
    else
      var aweme := resp.awemeList[0];
      if aweme.id != id then
        Err(NotFound)
      else if aweme.video.playAddr.urlList == [] then
        Err(EmptyUrlList)
      else
        Ok(TikTok(aweme.desc, aweme.video.playAddr.urlList[0], aweme.author, aweme.statistics))
  }

  /** `TikTok::from`: the request (its transport and decoding failures) and
      then `Select`. */
  function From(id: string, fetched: Fetched<ApiResponse>): (r: Result<TikTok, FromError>)
    ensures fetched.NetError? <==> r == Err(FetchFailed)
    ensures fetched.Got? ==> r == Select(id, fetched.value)
  {
    match fetched
    case NetError => Err(FetchFailed)
    case Got(resp) => Select(id, resp)
  }

  /** Entries after the first never change the outcome. */
  lemma SelectIgnoresLaterEntries(id: string, first: Aweme, rest: seq<Aweme>, rest': seq<Aweme>)
    ensures Select(id, ApiResponse([first] + rest)) == Select(id, ApiResponse([first] + rest'))
  {
  }

  /** A record is only ever produced for the id that was asked for. */
  lemma FromNeverMismatches(id: string, fetched: Fetched<ApiResponse>)
    requires From(id, fetched).Ok?
    ensures fetched.Got? && fetched.value.awemeList != [] && fetched.value.awemeList[0].id == id
  {
  }

  const AvatarPrefix := "https://p16-amd-va.tiktokcdn.com/origin/"
  const AvatarSuffix := ".jpeg"

  /** `VideoAuthor::avatar_url`: the CDN prefix, the avatar reference, the suffix. */
  function AvatarUrl(a: VideoAuthor): (r: string)
    ensures AvatarUriOf(r) == Some(a.avatarUri)
  {
    AvatarUrlRoundTrip(a.avatarUri);
    AvatarPrefix + a.avatarUri + AvatarSuffix
  }

  /** Takes the CDN prefix and suffix off an avatar URL. */
  function AvatarUriOf(url: string): (r: Option<string>)
    ensures r.Some? ==> url == AvatarPrefix + r.value + AvatarSuffix
  {
    var p, q := |AvatarPrefix|, |AvatarSuffix|;
    if |url| >= p + q && url[..p] == AvatarPrefix && url[|url| - q..] == AvatarSuffix then
      Some(url[p..|url| - q])
    else
      None
  }

  /** Stripping the CDN prefix and suffix gives back the avatar reference. */
  lemma {:induction false} AvatarUrlRoundTrip(uri: string)
    ensures AvatarUriOf(AvatarPrefix + uri + AvatarSuffix) == Some(uri)
  {
    var url := AvatarPrefix + uri + AvatarSuffix;
    var p := |AvatarPrefix|;
    assert url[..p] == AvatarPrefix;
    assert url[|url| - |AvatarSuffix|..] == AvatarSuffix;
    assert url[p..|url| - |AvatarSuffix|] == uri;
  }

  /** Hence authors with different avatar references get different URLs. */
  lemma AvatarUrlInjective(a: VideoAuthor, b: VideoAuthor)
    ensures AvatarUrl(a) == AvatarUrl(b) ==> a.avatarUri == b.avatarUri
  {
    assert AvatarUriOf(AvatarUrl(a)) == Some(a.avatarUri);
    assert AvatarUriOf(AvatarUrl(b)) == Some(b.avatarUri);
  }
}
