/** `handle_message` (src/main.rs): the decision skeleton of the message
    handler. The network and the chat platform are not called; what they
    answer is an input (`Network`, `Platform`), and every request the handler
    would make is recorded, in order, as an `Effect`. The handler's result is
    an `Outcome`: it finished, it returned an error, or it panicked. */
module Handler {
  import opened Basics
  import opened Chars
  import opened LinkMatcher
  import opened Metadata
  import opened Reply

  /** The parts of an incoming message the handler reads. */
  datatype Message = Message(id: nat, channel: nat, content: string)

  /** What the network answers: whether the HTTP client can be built, the
      body of the unfollowed redirect a short link answers with, the decoded
      metadata feed, and the downloaded video. */
  datatype Network = Network(
    clientBuilds: bool,
    shortLinkBody: Fetched<string>,
    feed: Fetched<ApiResponse>,
    media: Fetched<seq<byte>>)

  /** Whether each call to the chat platform succeeds. */
  datatype Platform = Platform(
    reactOk: bool,
    typingStartOk: bool,
    suppressOk: bool,
    sendOk: bool,
    typingStopOk: bool)

  /** A request the handler makes. `FetchMetadata(id)` is the request for
      `FeedUrl(id)`. */
  datatype Effect =
    | ProbeShortLink(url: string)
    | FetchMetadata(id: string)
    | DownloadMedia(url: string)
    | React(message: nat, emoji: string)
    | StartTyping(channel: nat)
    | SuppressEmbeds(message: nat)
    | SendReply(channel: nat, plan: ReplyPlan)
    | StopTyping(channel: nat)

  /** The error the handler returns (each `?` and the `bail!`). */
  datatype Failure =
    | ClientBuildFailed
    | ShortLinkFailed
    | ReactFailed
    | GetTikTokFailed
    | MediaFailed
    | TypingFailed
    | SuppressFailed
    | SendFailed

  /** Where the handler panics: an `unwrap` on a missing desktop match, the
      `[0]` indexings inside `from`, and the `unwrap` on `typing.stop()`. */
  datatype Panic = NoDesktopLink | FromIndexing | TypingStopUnwrap

  datatype Outcome = Done | Failed(failure: Failure) | Panicked(panic: Panic)

  /** The reaction put on a message whose video cannot be fetched. */
  const FailureEmoji := "❌"

  // ---------------------------------------------------------------------------
  // What the handler's result is specified against

  /** What the two patterns find: the video id of the leftmost desktop link
      in the message, the leftmost short link in the message, and the video
      id in the body the probe of that short link answers with. */
  datatype Scan = Scan(desktopId: Option<string>, shortLink: Option<string>, redirectId: Option<string>)

  function ScanOf(msg: Message, net: Network): (r: Scan)
    ensures r.desktopId.Some? <==> FindDesktop(msg.content).Some?
    ensures r.shortLink.Some? <==> FindShort(msg.content).Some?
    ensures net.shortLinkBody.Got? ==> r.redirectId == DesktopId(net.shortLinkBody.value)
  {
    Scan(DesktopId(msg.content), ShortLink(msg.content),
         if net.shortLinkBody.Got? then DesktopId(net.shortLinkBody.value) else None)
  }

  /** The message contains a link of either form. */
  predicate HasLink(scan: Scan)
  {
    scan.desktopId.Some? || scan.shortLink.Some?
  }

  /** The id the handler asks for: the one in the redirect body when the
      message holds a short link, otherwise the one in the message. */
  function ScannedId(scan: Scan): Option<string>
  {
    if scan.shortLink.Some? then scan.redirectId else scan.desktopId
  }

  /** Every step after the gate goes through: the conditions under which a
      message with a link gets its reply and the handler finishes. */
  predicate Succeeds(msg: Message, net: Network, platform: Platform, scan: Scan)
  {
    && net.clientBuilds
    && (scan.shortLink.Some? ==> net.shortLinkBody.Got?)
    && ScannedId(scan).Some?
    && From(ScannedId(scan).value, net.feed).Ok?
    && net.media.Got?
    && platform.typingStartOk && platform.suppressOk && platform.sendOk && platform.typingStopOk
  }

  /** The handler's result and the requests it made, in order. */
  datatype Handled = Handled(outcome: Outcome, trace: seq<Effect>)

  /** What the handler does with message `msg` when the network and the
      platform answer as `net` and `platform` say. */
  function Handle(msg: Message, net: Network, platform: Platform): (r: Handled)
    ensures r.trace == [] <==> (FindDesktop(msg.content).None? && FindShort(msg.content).None?) || !net.clientBuilds
    ensures |r.trace| <= 7
  {
    Run(msg, net, platform, ScanOf(msg, net))
  }

  /** The probe of the short link, when the message has one. */
  function Probe(scan: Scan): seq<Effect>
  {
    if scan.shortLink.Some? then [ProbeShortLink(scan.shortLink.value)] else []
  }

  /** The same, for what the patterns found given as `scan`. */
  function Run(msg: Message, net: Network, platform: Platform, scan: Scan): (r: Handled)
    ensures r.trace == [] <==> !HasLink(scan) || !net.clientBuilds
    ensures |r.trace| <= 7
  {
    if !HasLink(scan) then Handled(Done, [])
    else if !net.clientBuilds then Handled(Failed(ClientBuildFailed), [])
    else
      if scan.shortLink.Some? && net.shortLinkBody.NetError? then Handled(Failed(ShortLinkFailed), Probe(scan))
      else if ScannedId(scan).None? then Handled(Panicked(NoDesktopLink), Probe(scan))
      else Fetch(msg, net, platform, ScannedId(scan).value, Probe(scan))
  }

  /** From the metadata request for `id` on, after the requests `before`. */
  function Fetch(msg: Message, net: Network, platform: Platform, id: string, before: seq<Effect>): Handled
  {
    var fetch := before + [FetchMetadata(id)];
    var record := From(id, net.feed);
    if record.Err? && IsPanic(record.error) then
      Handled(Panicked(FromIndexing), fetch)
    else if record.Err? then
      Handled(if platform.reactOk then Failed(GetTikTokFailed) else Failed(ReactFailed),
              fetch + [React(msg.id, FailureEmoji)])
    else
      Deliver(msg, net, platform, record.value, fetch)
  }

  /** From the download of the video of record `t` on, after the requests
      `before`. */
  function Deliver(msg: Message, net: Network, platform: Platform, t: TikTok, before: seq<Effect>): Handled
  {
    var download := before + [DownloadMedia(t.videoUrl)];
    var typing := download + [StartTyping(msg.channel)];
    var suppress := typing + [SuppressEmbeds(msg.id)];
    if net.media.NetError? then Handled(Failed(MediaFailed), download)
    else if !platform.typingStartOk then Handled(Failed(TypingFailed), typing)
    else if !platform.suppressOk then Handled(Failed(SuppressFailed), suppress)
    else
      var send := suppress + [SendReply(msg.channel, BuildReply(msg.id, t, net.media.value))];
      var stop := send + [StopTyping(msg.channel)];
      if !platform.sendOk then Handled(Failed(SendFailed), send)
      else if !platform.typingStopOk then Handled(Panicked(TypingStopUnwrap), stop)
      else Handled(Done, stop)
  }

  // ---------------------------------------------------------------------------
  // The handler

  method HandleMessage(msg: Message, net: Network, platform: Platform) returns (outcome: Outcome, trace: seq<Effect>)
    ensures Handled(outcome, trace) == Handle(msg, net, platform)
  {
    trace := [];
    if FindDesktop(msg.content).None? && FindShort(msg.content).None? {
      return Done, trace;
    }
    if !net.clientBuilds {
      return Failed(ClientBuildFailed), trace;
    }

    var content := msg.content;
    if FindShort(content).Some? {
      var url := ShortLink(msg.content).value;
      trace := trace + [ProbeShortLink(url)];
      assert trace == [ProbeShortLink(url)];
      if net.shortLinkBody.NetError? {
        return Failed(ShortLinkFailed), trace;
      }
      content := net.shortLinkBody.value;
    }

    var found := DesktopId(content);
    if found.None? {
      return Panicked(NoDesktopLink), trace;
    }
    var id := found.value;

    trace := trace + [FetchMetadata(id)];
    var record := From(id, net.feed);
    if record.Err? {
      if IsPanic(record.error) {
        return Panicked(FromIndexing), trace;
      }
      trace := trace + [React(msg.id, FailureEmoji)];
      if !platform.reactOk {
        return Failed(ReactFailed), trace;
      }
      return Failed(GetTikTokFailed), trace;
    }
    var t := record.value;

    trace := trace + [DownloadMedia(t.videoUrl)];
    if net.media.NetError? {
      return Failed(MediaFailed), trace;
    }
    var file := net.media.value;

    trace := trace + [StartTyping(msg.channel)];
    if !platform.typingStartOk {
      return Failed(TypingFailed), trace;
    }
    trace := trace + [SuppressEmbeds(msg.id)];
    if !platform.suppressOk {
      return Failed(SuppressFailed), trace;
    }
    trace := trace + [SendReply(msg.channel, BuildReply(msg.id, t, file))];
    if !platform.sendOk {
      return Failed(SendFailed), trace;
    }
    trace := trace + [StopTyping(msg.channel)];
    if !platform.typingStopOk {
      return Panicked(TypingStopUnwrap), trace;
    }
    return Done, trace;
  }


  // ---------------------------------------------------------------------------
  // The shape of a trace

  /** Everything the handler requests once it holds record `t`, in order. */
  function Steps(msg: Message, t: TikTok, media: seq<byte>): seq<Effect>
  {
    [ DownloadMedia(t.videoUrl), StartTyping(msg.channel), SuppressEmbeds(msg.id),
      SendReply(msg.channel, BuildReply(msg.id, t, media)), StopTyping(msg.channel) ]
  }

  /** The video, or nothing when its download failed. */
  function MediaOf(net: Network): seq<byte>
  {
    if net.media.Got? then net.media.value else []
  }

  /** How many of the steps are made: each step is made only when the one
      before it went through. */
  function StepCount(net: Network, platform: Platform): nat
  {
    if net.media.NetError? then 1
    else if !platform.typingStartOk then 2
    else if !platform.suppressOk then 3
    else if !platform.sendOk then 4
    else 5
  }

  /** Delivering a record extends the trace by the steps that are made; the
      handler finishes only when all five were. */
  lemma DeliverShape(msg: Message, net: Network, platform: Platform, t: TikTok, before: seq<Effect>)
    ensures var r := Deliver(msg, net, platform, t, before);
      && r.trace == before + Steps(msg, t, MediaOf(net))[..StepCount(net, platform)]
      && (r.outcome == Done ==> StepCount(net, platform) == 5)
  {
    var steps := Steps(msg, t, MediaOf(net));
    var download := before + [DownloadMedia(t.videoUrl)];
    assert download == before + steps[..1];
    var typing := download + [StartTyping(msg.channel)];
    assert typing == before + steps[..2];
    var suppress := typing + [SuppressEmbeds(msg.id)];
    assert suppress == before + steps[..3];
    if net.media.Got? {
      var send := suppress + [SendReply(msg.channel, BuildReply(msg.id, t, net.media.value))];
      assert send == before + steps[..4];
      assert send + [StopTyping(msg.channel)] == before + steps[..5];
    }
  }

  /** What follows the metadata request for `id`: nothing when `from`
      panics, the failure reaction when it fails, and otherwise the steps
      that are made. */
  function AfterFetch(msg: Message, net: Network, platform: Platform, id: string): seq<Effect>
  {
    var record := From(id, net.feed);
    if record.Err? && IsPanic(record.error) then []
    else if record.Err? then [React(msg.id, FailureEmoji)]
    else Steps(msg, record.value, MediaOf(net))[..StepCount(net, platform)]
  }

  /** The requests the handler makes: none when it stops at the gate or
      cannot build its client, only the probe when the probe fails or finds
      no desktop link, and otherwise the probe, the metadata request and what
      follows it. */
  lemma RunShape(msg: Message, net: Network, platform: Platform, scan: Scan)
    ensures var r := Run(msg, net, platform, scan);
      && (!HasLink(scan) || !net.clientBuilds ==> r.trace == [])
      && (HasLink(scan) && net.clientBuilds && ((scan.shortLink.Some? && net.shortLinkBody.NetError?) || ScannedId(scan).None?) ==>
            r.trace == Probe(scan))
      && (HasLink(scan) && net.clientBuilds && !(scan.shortLink.Some? && net.shortLinkBody.NetError?) && ScannedId(scan).Some? ==>
            r.trace == Probe(scan) + [FetchMetadata(ScannedId(scan).value)] + AfterFetch(msg, net, platform, ScannedId(scan).value))
  {
    if HasLink(scan) && net.clientBuilds && !(scan.shortLink.Some? && net.shortLinkBody.NetError?) && ScannedId(scan).Some? {
      var id := ScannedId(scan).value;
      var record := From(id, net.feed);
      if record.Ok? {
        DeliverShape(msg, net, platform, record.value, Probe(scan) + [FetchMetadata(id)]);
      }
    }
  }

  // ---------------------------------------------------------------------------
  // Properties of a trace

  /** Only the short link of the message is probed, and only as the first request. */
  predicate ProbesFirst(scan: Scan, trace: seq<Effect>)
  {
    forall k | 0 <= k < |trace| && trace[k].ProbeShortLink? :: k == 0 && scan.shortLink == Some(trace[k].url)
  }

  /** The only metadata requested is that of video `id`. */
  predicate FetchesOnly(id: Option<string>, trace: seq<Effect>)
  {
    forall k | 0 <= k < |trace| && trace[k].FetchMetadata? :: id == Some(trace[k].id)
  }

  /** A metadata request that fails without panicking is followed by the failure reaction. */
  predicate FailedFetchAnswered(msg: Message, net: Network, trace: seq<Effect>)
  {
    forall k | 0 <= k < |trace| && trace[k].FetchMetadata? ::
      From(trace[k].id, net.feed).Err? && !IsPanic(From(trace[k].id, net.feed).error) ==>
      k + 1 < |trace| && trace[k + 1] == React(msg.id, FailureEmoji)
  }

  /** The failure reaction is only ever the last request, right after a
      metadata request that failed without panicking. */
  predicate ReactsOnlyLast(msg: Message, net: Network, trace: seq<Effect>)
  {
    forall k | 0 <= k < |trace| && trace[k].React? ::
      && k == |trace| - 1 && k > 0
      && trace[k] == React(msg.id, FailureEmoji)
      && trace[k - 1].FetchMetadata?
      && From(trace[k - 1].id, net.feed).Err? && !IsPanic(From(trace[k - 1].id, net.feed).error)
  }

  /** A reply comes after the metadata request, the download, the typing
      indicator and the suppression of the link embeds, and carries the
      downloaded video and the fetched record. */
  predicate RepliesFollowSteps(msg: Message, net: Network, trace: seq<Effect>)
  {
    forall k | 0 <= k < |trace| && trace[k].SendReply? ::
      && k >= 4
      && trace[k - 1] == SuppressEmbeds(msg.id)
      && trace[k - 2] == StartTyping(msg.channel)
      && trace[k - 4].FetchMetadata?
      && From(trace[k - 4].id, net.feed).Ok?
      && trace[k - 3] == DownloadMedia(From(trace[k - 4].id, net.feed).value.videoUrl)
      && net.media.Got?
      && trace[k] == SendReply(msg.channel, BuildReply(msg.id, From(trace[k - 4].id, net.feed).value, net.media.value))
  }

  /** No reply goes out in a trace with a failure reaction, and at most one goes out. */
  predicate RepliesAtMostOnce(trace: seq<Effect>)
  {
    && (forall k, l | 0 <= k < |trace| && 0 <= l < |trace| && trace[k].React? :: !trace[l].SendReply?)
    && (forall k, l | 0 <= k < l < |trace| && trace[k].SendReply? :: !trace[l].SendReply?)
  }

  /** The trace of a handler that reached the metadata request for `id`,
      spelled out position by position. */
  predicate Layout(msg: Message, net: Network, scan: Scan, id: string, trace: seq<Effect>)
  {
    var p := |Probe(scan)|;
    var record := From(id, net.feed);
    && p <= 1 && p < |trace|
    && (p == 1 ==> scan.shortLink.Some? && trace[0] == ProbeShortLink(scan.shortLink.value))
    && trace[p] == FetchMetadata(id)
    && (record.Err? && IsPanic(record.error) ==> |trace| == p + 1)
    && (record.Err? && !IsPanic(record.error) ==> |trace| == p + 2 && trace[p + 1] == React(msg.id, FailureEmoji))
    && (record.Ok? ==>
          && p + 2 <= |trace| <= p + 6
          && trace[p + 1] == DownloadMedia(record.value.videoUrl)
          && (p + 2 < |trace| ==> net.media.Got? && trace[p + 2] == StartTyping(msg.channel))
          && (p + 3 < |trace| ==> trace[p + 3] == SuppressEmbeds(msg.id))
          && (p + 4 < |trace| ==>
                net.media.Got? && trace[p + 4] == SendReply(msg.channel, BuildReply(msg.id, record.value, net.media.value)))
          && (p + 5 < |trace| ==> trace[p + 5] == StopTyping(msg.channel)))
  }

  lemma FetchTraceLayout(msg: Message, net: Network, platform: Platform, scan: Scan, id: string)
    ensures Layout(msg, net, scan, id, Probe(scan) + [FetchMetadata(id)] + AfterFetch(msg, net, platform, id))
  {
    var record := From(id, net.feed);
    var probe := Probe(scan);
    var p := |probe|;
    if record.Ok? {
      var steps := Steps(msg, record.value, MediaOf(net));
      var n := StepCount(net, platform);
      var trace := probe + [FetchMetadata(id)] + steps[..n];
      assert trace[p] == FetchMetadata(id);
      assert trace[p + 1] == DownloadMedia(record.value.videoUrl);
      if p + 2 < |trace| { assert trace[p + 2] == StartTyping(msg.channel); }
      if p + 3 < |trace| { assert trace[p + 3] == SuppressEmbeds(msg.id); }
      if p + 4 < |trace| { assert trace[p + 4] == steps[3]; }
      if p + 5 < |trace| { assert trace[p + 5] == StopTyping(msg.channel); }
    }
  }

  /** Which request can stand at position `k` of such a trace: the probe
      only before the metadata request, and that request only once. */
  lemma LayoutAt(msg: Message, net: Network, scan: Scan, id: string, trace: seq<Effect>, k: nat)
    requires Layout(msg, net, scan, id, trace)
    requires k < |trace|
    ensures trace[k].ProbeShortLink? <==> k < |Probe(scan)|
    ensures trace[k].FetchMetadata? <==> k == |Probe(scan)|
    ensures trace[k].React? ==> k == |Probe(scan)| + 1 == |trace| - 1 && From(id, net.feed).Err?
    ensures trace[k].SendReply? ==> k == |Probe(scan)| + 4 && From(id, net.feed).Ok?
  {
    var p := |Probe(scan)|;
    if k > p + 1 {
      LayoutLater(msg, net, scan, id, trace, k);
    }
  }

  /** Past the metadata request and the request after it, only the steps of a delivery remain. */
  lemma LayoutLater(msg: Message, net: Network, scan: Scan, id: string, trace: seq<Effect>, k: nat)
    requires Layout(msg, net, scan, id, trace)
    requires |Probe(scan)| + 1 < k < |trace|
    ensures From(id, net.feed).Ok?
    ensures trace[k].StartTyping? || trace[k].SuppressEmbeds? || trace[k].SendReply? || trace[k].StopTyping?
    ensures trace[k].SendReply? ==> k == |Probe(scan)| + 4
  {
    var p := |Probe(scan)|;
    var record := From(id, net.feed);
    if record.Err? {
      assert false;
    } else {
      assert k <= p + 5;
      if k == p + 2 {
        assert trace[k] == StartTyping(msg.channel);
      } else if k == p + 3 {
        assert trace[k] == SuppressEmbeds(msg.id);
      } else if k == p + 4 {
        assert trace[k].SendReply?;
      } else {
        assert trace[k] == StopTyping(msg.channel);
      }
    }
  }

  lemma LayoutProbesFirst(msg: Message, net: Network, scan: Scan, id: string, trace: seq<Effect>)
    requires Layout(msg, net, scan, id, trace)
    ensures ProbesFirst(scan, trace)
  {
    forall k | 0 <= k < |trace| && trace[k].ProbeShortLink?
      ensures k == 0 && scan.shortLink == Some(trace[k].url)
    {
      LayoutAt(msg, net, scan, id, trace, k);
    }
  }

  lemma LayoutFetchesOnly(msg: Message, net: Network, scan: Scan, id: string, trace: seq<Effect>)
    requires Layout(msg, net, scan, id, trace)
    ensures FetchesOnly(Some(id), trace)
  {
    forall k | 0 <= k < |trace| && trace[k].FetchMetadata?
      ensures Some(id) == Some(trace[k].id)
    {
      LayoutAt(msg, net, scan, id, trace, k);
    }
  }

  lemma LayoutFailedFetchAnswered(msg: Message, net: Network, scan: Scan, id: string, trace: seq<Effect>)
    requires Layout(msg, net, scan, id, trace)
    ensures FailedFetchAnswered(msg, net, trace)
  {
    forall k | 0 <= k < |trace| && trace[k].FetchMetadata?
      ensures From(trace[k].id, net.feed).Err? && !IsPanic(From(trace[k].id, net.feed).error) ==>
        k + 1 < |trace| && trace[k + 1] == React(msg.id, FailureEmoji)
    {
      LayoutAt(msg, net, scan, id, trace, k);
    }
  }

  lemma LayoutReactsOnlyLast(msg: Message, net: Network, scan: Scan, id: string, trace: seq<Effect>)
    requires Layout(msg, net, scan, id, trace)
    ensures ReactsOnlyLast(msg, net, trace)
  {
    forall k | 0 <= k < |trace| && trace[k].React?
      ensures k == |trace| - 1 && k > 0 && trace[k] == React(msg.id, FailureEmoji)
      ensures trace[k - 1].FetchMetadata?
      ensures From(trace[k - 1].id, net.feed).Err? && !IsPanic(From(trace[k - 1].id, net.feed).error)
    {
      LayoutAt(msg, net, scan, id, trace, k);
    }
  }

  lemma LayoutRepliesFollowSteps(msg: Message, net: Network, scan: Scan, id: string, trace: seq<Effect>)
    requires Layout(msg, net, scan, id, trace)
    ensures RepliesFollowSteps(msg, net, trace)
  {
    forall k | 0 <= k < |trace| && trace[k].SendReply?
      ensures k >= 4 && trace[k - 4] == FetchMetadata(id) && From(id, net.feed).Ok?
      ensures trace[k - 3] == DownloadMedia(From(id, net.feed).value.videoUrl)
      ensures trace[k - 2] == StartTyping(msg.channel) && trace[k - 1] == SuppressEmbeds(msg.id)
      ensures net.media.Got? && trace[k] == SendReply(msg.channel, BuildReply(msg.id, From(id, net.feed).value, net.media.value))
    {
      LayoutAt(msg, net, scan, id, trace, k);
    }
  }

  lemma LayoutRepliesAtMostOnce(msg: Message, net: Network, scan: Scan, id: string, trace: seq<Effect>)
    requires Layout(msg, net, scan, id, trace)
    ensures RepliesAtMostOnce(trace)
  {
    forall k | 0 <= k < |trace| ensures trace[k].React? ==> k == |Probe(scan)| + 1 && From(id, net.feed).Err?
      ensures trace[k].SendReply? ==> k == |Probe(scan)| + 4 && From(id, net.feed).Ok?
    {
      LayoutAt(msg, net, scan, id, trace, k);
    }
  }

  // ---------------------------------------------------------------------------
  // What the handler guarantees, for whatever the patterns found

  /** A message without a link is left alone, and only such a message. */
  lemma GateLeavesOthersAlone(msg: Message, net: Network, platform: Platform, scan: Scan)
    ensures !HasLink(scan) <==> Run(msg, net, platform, scan) == Handled(Done, [])
  {
  }

  /** The handler finishes exactly when there is no link or every step succeeds. */
  lemma DoneExactlyWhenSucceeds(msg: Message, net: Network, platform: Platform, scan: Scan)
    ensures Run(msg, net, platform, scan).outcome == Done <==> !HasLink(scan) || Succeeds(msg, net, platform, scan)
  {
  }

  /** Without an HTTP client nothing is requested. */
  lemma NoClientNoRequests(msg: Message, net: Network, platform: Platform, scan: Scan)
    requires HasLink(scan) && !net.clientBuilds
    ensures Run(msg, net, platform, scan) == Handled(Failed(ClientBuildFailed), [])
  {
  }

  /** The probe fails the handler only when it cannot be answered. */
  lemma ShortLinkFailureExactly(msg: Message, net: Network, platform: Platform, scan: Scan)
    ensures Run(msg, net, platform, scan).outcome == Failed(ShortLinkFailed) <==>
      HasLink(scan) && net.clientBuilds && scan.shortLink.Some? && net.shortLinkBody.NetError?
  {
  }

  /** The id lookup panics only on a redirect body without a desktop link: a
      message holding only a desktop link never reaches that panic. */
  lemma NoDesktopLinkPanicExactly(msg: Message, net: Network, platform: Platform, scan: Scan)
    ensures Run(msg, net, platform, scan).outcome == Panicked(NoDesktopLink) <==>
      net.clientBuilds && scan.shortLink.Some? && net.shortLinkBody.Got? && scan.redirectId.None?
  {
  }

  /** Only the short link of the message is probed, and first; nothing comes before its probe. */
  lemma ProbeOnlyShortLinkFirst(msg: Message, net: Network, platform: Platform, scan: Scan)
    ensures var trace := Run(msg, net, platform, scan).trace;
      ProbesFirst(scan, trace)
    ensures var trace := Run(msg, net, platform, scan).trace;
      HasLink(scan) && net.clientBuilds && scan.shortLink.Some? ==>
        trace != [] && trace[0] == ProbeShortLink(scan.shortLink.value)
  {
    RunShape(msg, net, platform, scan);
    if HasLink(scan) && net.clientBuilds && !(scan.shortLink.Some? && net.shortLinkBody.NetError?) && ScannedId(scan).Some? {
      var id := ScannedId(scan).value;
      FetchTraceLayout(msg, net, platform, scan, id);
      LayoutProbesFirst(msg, net, scan, id, Probe(scan) + [FetchMetadata(id)] + AfterFetch(msg, net, platform, id));
    }
  }

  /** The only metadata ever requested is that of the scanned id. */
  lemma FetchesScannedId(msg: Message, net: Network, platform: Platform, scan: Scan)
    ensures var trace := Run(msg, net, platform, scan).trace;
      FetchesOnly(ScannedId(scan), trace)
  {
    RunShape(msg, net, platform, scan);
    if HasLink(scan) && net.clientBuilds && !(scan.shortLink.Some? && net.shortLinkBody.NetError?) && ScannedId(scan).Some? {
      var id := ScannedId(scan).value;
      FetchTraceLayout(msg, net, platform, scan, id);
      LayoutFetchesOnly(msg, net, scan, id, Probe(scan) + [FetchMetadata(id)] + AfterFetch(msg, net, platform, id));
    }
  }

  /** A metadata request that fails without panicking is answered by the failure reaction. */
  lemma FailedFetchIsAnswered(msg: Message, net: Network, platform: Platform, scan: Scan)
    ensures var trace := Run(msg, net, platform, scan).trace;
      FailedFetchAnswered(msg, net, trace)
  {
    RunShape(msg, net, platform, scan);
    if HasLink(scan) && net.clientBuilds && !(scan.shortLink.Some? && net.shortLinkBody.NetError?) && ScannedId(scan).Some? {
      var id := ScannedId(scan).value;
      FetchTraceLayout(msg, net, platform, scan, id);
      LayoutFailedFetchAnswered(msg, net, scan, id, Probe(scan) + [FetchMetadata(id)] + AfterFetch(msg, net, platform, id));
    }
  }

  /** The failure reaction ends the trace and follows a failed metadata request. */
  lemma ReactOnlyAfterFailedFetch(msg: Message, net: Network, platform: Platform, scan: Scan)
    ensures var trace := Run(msg, net, platform, scan).trace;
      ReactsOnlyLast(msg, net, trace)
  {
    RunShape(msg, net, platform, scan);
    if HasLink(scan) && net.clientBuilds && !(scan.shortLink.Some? && net.shortLinkBody.NetError?) && ScannedId(scan).Some? {
      var id := ScannedId(scan).value;
      FetchTraceLayout(msg, net, platform, scan, id);
      LayoutReactsOnlyLast(msg, net, scan, id, Probe(scan) + [FetchMetadata(id)] + AfterFetch(msg, net, platform, id));
    }
  }

  /** A reply goes out only after its steps, with the fetched record and the downloaded video. */
  lemma ReplyFollowsItsSteps(msg: Message, net: Network, platform: Platform, scan: Scan)
    ensures var trace := Run(msg, net, platform, scan).trace;
      RepliesFollowSteps(msg, net, trace)
  {
    RunShape(msg, net, platform, scan);
    if HasLink(scan) && net.clientBuilds && !(scan.shortLink.Some? && net.shortLinkBody.NetError?) && ScannedId(scan).Some? {
      var id := ScannedId(scan).value;
      FetchTraceLayout(msg, net, platform, scan, id);
      LayoutRepliesFollowSteps(msg, net, scan, id, Probe(scan) + [FetchMetadata(id)] + AfterFetch(msg, net, platform, id));
    }
  }

  /** At most one reply is sent, and none after a failure reaction. */
  lemma AtMostOneReplySent(msg: Message, net: Network, platform: Platform, scan: Scan)
    ensures var trace := Run(msg, net, platform, scan).trace;
      RepliesAtMostOnce(trace)
  {
    RunShape(msg, net, platform, scan);
    if HasLink(scan) && net.clientBuilds && !(scan.shortLink.Some? && net.shortLinkBody.NetError?) && ScannedId(scan).Some? {
      var id := ScannedId(scan).value;
      FetchTraceLayout(msg, net, platform, scan, id);
      LayoutRepliesAtMostOnce(msg, net, scan, id, Probe(scan) + [FetchMetadata(id)] + AfterFetch(msg, net, platform, id));
    }
  }

  /** The failure reaction is made exactly when the handler's error is the
      failed lookup or the failed reaction; which of the two says whether the
      reaction went through. */
  lemma ReactOutcome(msg: Message, net: Network, platform: Platform, scan: Scan)
    ensures var r := Run(msg, net, platform, scan);
      r.outcome in {Failed(GetTikTokFailed), Failed(ReactFailed)} <==>
        r.trace != [] && r.trace[|r.trace| - 1].React?
    ensures var r := Run(msg, net, platform, scan);
      r.outcome == Failed(ReactFailed) ==> !platform.reactOk
    ensures var r := Run(msg, net, platform, scan);
      r.outcome == Failed(GetTikTokFailed) ==> platform.reactOk
  {
    RunShape(msg, net, platform, scan);
    var r := Run(msg, net, platform, scan);
    if HasLink(scan) && net.clientBuilds && !(scan.shortLink.Some? && net.shortLinkBody.NetError?) && ScannedId(scan).Some? {
      var record := From(ScannedId(scan).value, net.feed);
      if record.Ok? {
        var steps := Steps(msg, record.value, MediaOf(net));
        var n := StepCount(net, platform);
        assert r.trace[|r.trace| - 1] == steps[..n][n - 1];
      }
    }
  }

  /** An empty feed or URL list panics, exactly when the metadata of the
      scanned id is requested and its answer has one; the panic comes right
      after that request. */
  lemma FromPanicExactly(msg: Message, net: Network, platform: Platform, scan: Scan)
    ensures Run(msg, net, platform, scan).outcome == Panicked(FromIndexing) <==>
      && HasLink(scan) && net.clientBuilds
      && !(scan.shortLink.Some? && net.shortLinkBody.NetError?)
      && ScannedId(scan).Some?
      && From(ScannedId(scan).value, net.feed).Err? && IsPanic(From(ScannedId(scan).value, net.feed).error)
    ensures var r := Run(msg, net, platform, scan);
      r.outcome == Panicked(FromIndexing) ==>
        |r.trace| > 0 && r.trace[|r.trace| - 1] == FetchMetadata(ScannedId(scan).value)
  {
    RunShape(msg, net, platform, scan);
  }

  /** A failed stop of the typing indicator panics, exactly when every step
      before it went through; the reply was sent by then. */
  lemma TypingStopPanicExactly(msg: Message, net: Network, platform: Platform, scan: Scan)
    ensures Run(msg, net, platform, scan).outcome == Panicked(TypingStopUnwrap) <==>
      && HasLink(scan) && net.clientBuilds
      && (scan.shortLink.Some? ==> net.shortLinkBody.Got?)
      && ScannedId(scan).Some?
      && From(ScannedId(scan).value, net.feed).Ok?
      && net.media.Got?
      && platform.typingStartOk && platform.suppressOk && platform.sendOk
      && !platform.typingStopOk
    ensures var r := Run(msg, net, platform, scan);
      r.outcome == Panicked(TypingStopUnwrap) ==>
        |r.trace| >= 6 && r.trace[|r.trace| - 1] == StopTyping(msg.channel) && r.trace[|r.trace| - 2].SendReply?
  {
    RunShape(msg, net, platform, scan);
    if HasLink(scan) && net.clientBuilds && !(scan.shortLink.Some? && net.shortLinkBody.NetError?) && ScannedId(scan).Some? {
      var id := ScannedId(scan).value;
      var record := From(id, net.feed);
      if record.Ok? {
        DeliverShape(msg, net, platform, record.value, Probe(scan) + [FetchMetadata(id)]);
      }
    }
  }

  /** Finishing after a link means the reply went out and typing was stopped last. */
  lemma DoneEndsWithStop(msg: Message, net: Network, platform: Platform, scan: Scan)
    ensures var r := Run(msg, net, platform, scan);
      r.outcome == Done && HasLink(scan) ==>
        |r.trace| >= 6 && r.trace[|r.trace| - 1] == StopTyping(msg.channel) && r.trace[|r.trace| - 2].SendReply?
  {
    RunShape(msg, net, platform, scan);
    if HasLink(scan) && net.clientBuilds && !(scan.shortLink.Some? && net.shortLinkBody.NetError?) && ScannedId(scan).Some? {
      var id := ScannedId(scan).value;
      var record := From(id, net.feed);
      if record.Ok? {
        DeliverShape(msg, net, platform, record.value, Probe(scan) + [FetchMetadata(id)]);
      }
    }
  }

  // ---------------------------------------------------------------------------
  // The same, for what the patterns find in the message

  /** A message is left alone exactly when neither pattern matches its text. */
  lemma HandleIgnoresMessagesWithoutLinks(msg: Message, net: Network, platform: Platform)
    ensures Handle(msg, net, platform) == Handled(Done, []) <==>
      FindDesktop(msg.content).None? && FindShort(msg.content).None?
  {
    GateLeavesOthersAlone(msg, net, platform, ScanOf(msg, net));
  }

  /** For a message holding only desktop links, the first request is the
      metadata of the video the leftmost desktop link names. */
  lemma HandleFetchesLeftmostDesktopId(msg: Message, net: Network, platform: Platform)
    requires FindShort(msg.content).None? && FindDesktop(msg.content).Some? && net.clientBuilds
    ensures var trace := Handle(msg, net, platform).trace;
      && trace != []
      && trace[0] == FetchMetadata(FindDesktop(msg.content).value.url.id)
  {
    var scan := ScanOf(msg, net);
    RunShape(msg, net, platform, scan);
  }

  /** For a message with a short link whose probe answers with a body
      holding a desktop link, the probe comes first, then the metadata of
      the id in that body; no other id is requested, even when the message
      itself holds a desktop link. */
  lemma HandleFetchesRedirectId(msg: Message, net: Network, platform: Platform)
    requires FindShort(msg.content).Some? && net.clientBuilds
    requires net.shortLinkBody.Got? && DesktopId(net.shortLinkBody.value).Some?
    ensures var trace := Handle(msg, net, platform).trace;
      && |trace| >= 2
      && trace[0] == ProbeShortLink(ShortLink(msg.content).value)
      && trace[1] == FetchMetadata(DesktopId(net.shortLinkBody.value).value)
      && FetchesOnly(DesktopId(net.shortLinkBody.value), trace)
  {
    var scan := ScanOf(msg, net);
    RunShape(msg, net, platform, scan);
    FetchesScannedId(msg, net, platform, scan);
  }
}
