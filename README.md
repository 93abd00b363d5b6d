# tiktok-re-embed, modelled in Dafny

tiktok-re-embed is a chat bot. It watches incoming messages for TikTok
video links. When it finds one, it asks an unofficial feed API for the
video's metadata and downloads the video. It then replies to the message
with the video attached and an embed naming the author and counting likes,
comments and views, and it hides the platform's own preview of the link.

This project models the core of that bot:

- `basics.dfy` (`Basics`): option, result and network-answer wrappers, the
  `u32` and byte widths, and literal matching at a position.
- `chars.dfy` (`Chars`): the character classes `\d`, `\w` and `[\w\.-]`
  the link patterns use.
- `link_matcher.dfy` (`LinkMatcher`): the two patterns of
  `TikTok::valid_urls`, written as hand-built matchers.
  - The desktop form is
    `https?://(?:www\.|m\.)?tiktok\.com/(?:embed|@[\w\.-]+/video|v)/(\d+)`.
  - The short form is `https?://(?:vm|vt)\.tiktok\.com/(\w+)`.
  - A matcher at a fixed position returns the parse of what it accepted.
  - A leftmost search over the text stands for `is_match` and `captures`.
  - The proofs cover:
    - soundness: what is accepted is a well-formed link written out at
      that position;
    - completeness: a written link is accepted, with exactly its parts;
    - that the search finds the leftmost match;
    - the round trip from a rendered link back to its parts.
- `metadata.dfy` (`Metadata`):
  - the records of `src/tiktok.rs`;
  - `TikTok::from` as a pure function of the decoded feed answer, with its
    two unchecked `[0]` indexings as distinct error kinds;
  - the feed request URL;
  - `VideoAuthor::avatar_url` and its inverse.
- `reply.dfy` (`Reply`): the reply that `handle_message` builds, as a value.
  The counters are rendered as decimal text, and that text is proved to
  read back as the counter.
- `handler.dfy` (`Handler`): `handle_message` itself.
  - The network and the chat platform are inputs (`Network`, `Platform`)
    saying how each call turns out.
  - The handler returns its outcome: it finished, it returned an error, or
    it panicked.
  - It also returns the list of requests it made, in order (the trace).
  - The imperative method `HandleMessage` follows the source statement by
    statement. It is proved equal to the function `Handle`.
  - `Handle` runs on what the two patterns found in the message (a `Scan`).
  - Lemmas about that function state what the handler guarantees:
    - which messages it leaves alone;
    - when each error and each panic happens;
    - that only the scanned id is fetched;
    - that a failed fetch is answered with the ❌ reaction;
    - that a reply goes out at most once, only after the download, the
      typing indicator and the embed suppression, and carrying the fetched
      record and the downloaded video.

### Behaviour of the code worth knowing

- **Short-link resolution.** A short link is resolved with one request
  that does not follow redirects. The desktop pattern is then run over the
  *body* of that answer (`src/main.rs:60-67`). The `Location` header is
  not read.
- **Both forms in one message.** When a message holds a short link, the id
  comes from the redirect body. Any desktop link in the message itself is
  ignored.
- **No desktop link in the redirect body.** The handler then panics at
  `unwrap` (`src/main.rs:67`). It does not report a redirect failure.
- **Empty metadata lists.** `TikTok::from` indexes `aweme_list[0]` before
  comparing ids (`src/tiktok.rs:17`) and `url_list[0]` after that check
  (`src/tiktok.rs:24`). An empty list of either kind is a panic, and
  neither gets the failure reaction.
- **Where the failure reaction is used.** The ❌ reaction is put only on a
  failed metadata lookup (`src/main.rs:74-80`). A failed reaction replaces
  the lookup error as the handler's error. Other failures just return
  their error.
- **Attachment name.** The attachment is always named `tiktok.mp4`.
- **Stopping the typing indicator.** The indicator starts before the embed
  suppression. Its stop is `unwrap`ped (`src/main.rs:111`), so a failed
  stop is a panic.
- **The metadata call.** `handle_message` calls `tiktok::get_tiktok`, and
  no such function appears in the source. It is modelled as
  `TikTok::from`, the only metadata lookup there is.
- **The avatar icon.** `tiktok.author.avatar_url` (`src/main.rs:99`) is
  modelled as the method `VideoAuthor::avatar_url`
  (`src/tiktok.rs:50-55`).

## Model

| member | source | states |
|---|---|---|
| LinkMatcher.RunEnd | src/tiktok.rs:33-35 | a greedy `+`/`*` run stops at the first character outside the class, and everything before it is in the class |
| LinkMatcher.RunEndUnique | src/tiktok.rs:33-35 | a run of class characters that cannot be extended is exactly the greedy run, so no shorter capture is possible |
| LinkMatcher.MatchScheme | src/tiktok.rs:33-35 | `https?://` is recognised only where that text is present, and the position after it is reported |
| LinkMatcher.MatchSchemeComplete | src/tiktok.rs:33-35 | a scheme written at a position is recognised there, as that scheme (`http://` and `https://` never both match) |
| LinkMatcher.MatchPath | src/tiktok.rs:33 | the path alternatives `embed`, `@handle/video` and `v` end strictly after their start |
| LinkMatcher.MatchPathSound | src/tiktok.rs:33 | an accepted path is one of the three shapes written out at that position, with a non-empty handle over `[\w\.-]` |
| LinkMatcher.MatchPathComplete | src/tiktok.rs:33 | each written path shape is accepted with exactly its own handle |
| LinkMatcher.MatchHost | src/tiktok.rs:33 | the optional `www.`/`m.` chosen is one that is present at that position |
| LinkMatcher.MatchHostComplete | src/tiktok.rs:33 | when the domain follows, the subdomain chosen is the one written, so the optional group needs no backtracking |
| LinkMatcher.MatchTailAt | src/tiktok.rs:33 | the tail `path/(\d+)` after the domain ends strictly after its start and within the text; what it accepts is given by the next two rows |
| LinkMatcher.MatchTailSound | src/tiktok.rs:33 | an accepted tail is path, `/` and a maximal digit run written at that position |
| LinkMatcher.MatchTailComplete | src/tiktok.rs:33 | a written tail whose id is not followed by a digit is accepted with exactly its parts |
| LinkMatcher.MatchHostedAt | src/tiktok.rs:33 | the part after the scheme, `(?:www\.|m\.)?tiktok\.com/` and the tail, ends strictly after its start and within the text; what it accepts is given by the next two rows |
| LinkMatcher.MatchHostedSound | src/tiktok.rs:33 | what follows the scheme is an optional subdomain, `tiktok.com/` and a well-formed tail |
| LinkMatcher.MatchHostedComplete | src/tiktok.rs:33 | a written subdomain, domain and tail are accepted with exactly their parts |
| LinkMatcher.MatchDesktopAt | src/tiktok.rs:33 | a desktop match starts where asked and ends within the text |
| LinkMatcher.MatchDesktopSound | src/tiktok.rs:33 | an accepted desktop link is a well-formed link written out at that position, and its id is a digit run that cannot be extended |
| LinkMatcher.MatchDesktopComplete | src/tiktok.rs:33 | a well-formed desktop link written at a position, not followed by a digit, is matched there with exactly its parts |
| LinkMatcher.MatchDesktopExtends | src/tiktok.rs:33 | a written desktop link is matched even when more digits follow; the captured id extends the written one |
| LinkMatcher.MatchShortAt | src/tiktok.rs:35 | a short match starts where asked and ends within the text |
| LinkMatcher.MatchShortSound | src/tiktok.rs:35 | an accepted short link is a well-formed short link written at that position, its code a maximal `\w` run |
| LinkMatcher.MatchShortComplete | src/tiktok.rs:35 | a well-formed short link written at a position, not followed by a word character, is matched there with exactly its parts |
| LinkMatcher.DesktopShortExclusive | src/tiktok.rs:31-37 | the two patterns never both match at the same start |
| LinkMatcher.FindDesktopFrom | src/tiktok.rs:33 | the search reports a match at its start and none earlier, or none anywhere |
| LinkMatcher.FindShortFrom | src/tiktok.rs:35 | the same for the short pattern |
| LinkMatcher.FindDesktop | src/main.rs:52 | a match found in the text is the desktop pattern's match at a position of the text |
| LinkMatcher.FindShort | src/main.rs:61-62 | a match found in the text is the short pattern's match at a position of the text |
| LinkMatcher.FindDesktopLeftmost | src/main.rs:52 | what `is_match`/`captures` find is the leftmost desktop match; no match means no position matches |
| LinkMatcher.FindShortLeftmost | src/main.rs:61-62 | the same for the short pattern |
| LinkMatcher.DesktopId | src/main.rs:67 | capture group 1 exists exactly when the desktop pattern matches; it is the id of the leftmost desktop match, a non-empty digit string |
| LinkMatcher.ShortLink | src/main.rs:62 | capture group 0 exists exactly when the short pattern matches, and is the whole well-formed short link |
| LinkMatcher.DesktopRoundTrip | src/tiktok.rs:33 | parsing a rendered desktop link finds it at position 0 with all its parts |
| LinkMatcher.DesktopIdIgnoresHost | src/tiktok.rs:33 | the id extracted does not depend on `www.`, `m.` or neither |
| LinkMatcher.ShortRoundTrip | src/tiktok.rs:35 | parsing a rendered short link gives back its parts, and the probed URL is the link itself |
| Metadata.FeedUrl | src/tiktok.rs:15 | the request URL is the fixed feed endpoint followed by exactly the id |
| Metadata.FeedUrlInjective | src/tiktok.rs:15 | different ids are never sent as the same request |
| Metadata.Select | src/tiktok.rs:17-28 | empty feed list, mismatched first id and empty URL list each give their own error (both directions); a record comes only from a first entry with the asked id and carries its first URL, description, author and statistics |
| Metadata.From | src/tiktok.rs:14-29 | a transport or decoding failure is exactly the fetch error; otherwise the result is the selection from the decoded answer |
| Metadata.SelectIgnoresLaterEntries | src/tiktok.rs:17 | entries after the first never change the result |
| Metadata.FromNeverMismatches | src/tiktok.rs:19-21 | a record is only ever returned for the id that was asked for |
| Metadata.AvatarUriOf | src/tiktok.rs:50-55 | stripping the CDN prefix and `.jpeg` succeeds only on a URL built from what it returns |
| Metadata.AvatarUrl | src/tiktok.rs:50-55 | the avatar URL is the CDN prefix, the avatar reference and `.jpeg`, and stripping them gives the reference back |
| Metadata.AvatarUrlRoundTrip | src/tiktok.rs:50-55 | stripping the CDN prefix and `.jpeg` from any reference wrapped in them gives back the reference |
| Metadata.AvatarUrlInjective | src/tiktok.rs:50-55 | authors with different avatar references get different icon URLs |
| Reply.Decimal | src/main.rs:102-104 | a counter is shown as a non-empty digit string with no leading zero |
| Reply.DecimalRoundTrip | src/main.rs:102-104 | reading the shown counter gives back the counter |
| Reply.DecimalInjective | src/main.rs:102-104 | different counters are shown differently |
| Reply.AuthorLine | src/main.rs:94-97 | the author name is the display name, then ` (@`, then the handle, then `)` |
| Reply.ProfileUrl | src/main.rs:98 | the author link is the profile prefix followed by exactly the handle |
| Reply.ProfileUrlNamesHandle | src/main.rs:98 | two authors get the same profile link exactly when they have the same handle |
| Reply.BuildReply | src/main.rs:87-109 | one attachment `tiktok.mp4` holding the video; author line, profile link and avatar icon; the description; fields Likes, Comments, Views, inline, whose text is the decimal rendering of the three counters and reads back as them; colour 0xF82054; a reply to the original message; no mention may notify |
| Handler.ScanOf | src/main.rs:50-67 | the scan has a desktop id or a short link exactly when the respective pattern matches the message; the redirect id is the desktop id of a probe body that arrived |
| Handler.Handle | src/main.rs:49-114 | the handler makes no request exactly when neither pattern matches or the client cannot be built, and never more than seven |
| Handler.Run | src/main.rs:49-114 | the same, given what the patterns found: no request exactly when there is no link or no client, and at most seven |
| Handler.HandleMessage | src/main.rs:49-114 | the imperative handler's outcome and requests are exactly those of `Handle` |
| Handler.DeliverShape | src/main.rs:82-111 | once a record is held, the handler makes download, typing, suppression, reply and stop in that order, each only if the one before went through; it finishes only if all five were made |
| Handler.RunShape | src/main.rs:49-81 | the requests are none at the gate or without a client; only the probe when it fails or its body has no desktop link; otherwise the probe, the metadata request and what follows it |
| Handler.GateLeavesOthersAlone | src/main.rs:50-54 | a message is left alone with no request exactly when neither pattern found anything |
| Handler.DoneExactlyWhenSucceeds | src/main.rs:49-114 | the handler finishes exactly when there is no link or every step goes through |
| Handler.NoClientNoRequests | src/main.rs:56-58 | without an HTTP client nothing is requested and the error is the client error |
| Handler.ShortLinkFailureExactly | src/main.rs:61-66 | the redirect error happens exactly when a short link is probed and the probe fails |
| Handler.NoDesktopLinkPanicExactly | src/main.rs:67 | the `unwrap` on the desktop capture panics exactly when a probed redirect body has no desktop link |
| Handler.ProbeOnlyShortLinkFirst | src/main.rs:60-66 | only the message's short link is probed, as the very first request |
| Handler.FetchesScannedId | src/main.rs:67-74 | the only metadata requested is that of the scanned id |
| Handler.FailedFetchIsAnswered | src/main.rs:74-80 | a metadata request that fails without panicking is followed by the ❌ reaction |
| Handler.ReactOnlyAfterFailedFetch | src/main.rs:74-80 | the ❌ reaction only ends a trace, right after a failed metadata request |
| Handler.ReactOutcome | src/main.rs:76-79 | the handler's error is the lookup failure or the reaction failure exactly when the reaction was made; which one says whether the reaction went through |
| Handler.FromPanicExactly | src/tiktok.rs:17-24 | the `[0]` indexings in `from` panic exactly when the scanned id's metadata is requested and its feed or URL list is empty, and that request is then the last one |
| Handler.TypingStopPanicExactly | src/main.rs:111 | the `unwrap` on stopping the typing indicator panics exactly when every earlier step went through and the stop failed; the reply was sent just before |
| Handler.ReplyFollowsItsSteps | src/main.rs:82-110 | a reply goes out only after the metadata request, the download, the typing indicator and the embed suppression, with the fetched record and the downloaded video |
| Handler.AtMostOneReplySent | src/main.rs:74-110 | at most one reply is sent, and none after a failure reaction |
| Handler.DoneEndsWithStop | src/main.rs:110-113 | finishing after a link means the reply went out and stopping the typing indicator came last |
| Handler.HandleIgnoresMessagesWithoutLinks | src/main.rs:50-54 | a message is left alone exactly when neither pattern matches its text |
| Handler.HandleFetchesLeftmostDesktopId | src/main.rs:67-74 | for a message with only desktop links, the first request is the metadata of the leftmost desktop link's id |
| Handler.HandleFetchesRedirectId | src/main.rs:60-67 | for a message with a short link whose probe body holds a desktop link, the probe of the message's short link comes first, then the metadata of the id in that body, and no other id is requested even when the message holds a desktop link of its own |

## Left out

- LinkMatcher.MatchDesktopAt: reads `\d` as the ASCII digits, and the `\w`
  of `@[\w\.-]+` in handles as ASCII letters, digits and `_`. The Rust
  pattern reads them as any Unicode decimal digit and any Unicode word
  character, so ids and handles in other scripts are not modelled.
- LinkMatcher.MatchShortAt: reads `\w` as ASCII letters, digits and `_`.
  The Rust pattern reads it as Unicode word characters.
- HTTP and JSON:
  - The HTTP requests, the redirect policy and the JSON decoding are not
    modelled.
  - Their results are inputs: `Network.shortLinkBody`, `Network.feed` and
    `Network.media`.
  - The two failure points of the probe (`send` and `text`) are merged
    into one failed answer. So are those of the download (`get` and
    `bytes`), and the request and decoding failures of `from`.
- Client construction: whether the HTTP client can be built is an input
  (`Network.clientBuilds`).
- Discord calls: the reaction, typing indicator, embed suppression and
  message send are recorded as requests with their arguments. Whether each
  one goes through is an input (`Platform`).
- The typing indicator's drop: when the handler returns early after
  starting the indicator, dropping `Typing` stops it implicitly. That
  implicit stop is not recorded.
- Logging: the `info!` line (`src/main.rs:68-73`) and the `error!` logging
  in `message` (`src/main.rs:42-46`).
- The `ready` handler, `main`, environment loading and client start-up
  (`src/main.rs:13-40`).
- Concurrency: concurrent handling of several messages by the async
  runtime.
- `tiktok::get_tiktok`, which `src/main.rs:74` calls, is not part of this
  model. `TikTok::from` stands in for it.
