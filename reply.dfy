/** The reply that `handle_message` (src/main.rs) builds in its
    `send_message` closure: one attachment, one embed, a reply reference and
    the allowed-mentions setting, as a value. */
module Reply {
  import opened Basics
  import opened Chars
  import opened Metadata

  // ---------------------------------------------------------------------------
  // How a counter is shown: the decimal text that `Display` gives a `u32`

  function DigitChar(d: nat): (c: char)
    requires d < 10
    ensures IsDigit(c)
  {
    ('0' as int + d) as char
  }

  function DigitValue(c: char): (d: nat)
    requires IsDigit(c)
    ensures d < 10 && DigitChar(d) == c
  {
    c as int - '0' as int
  }

  /** The decimal numeral of `n`: digits only, and no leading zero. */
  function Decimal(n: nat): (r: string)
    ensures |r| > 0 && AllIn(Digits, r)
    ensures r[0] == '0' ==> n == 0
    decreases n
  {
    if n < 10 then [DigitChar(n)] else Decimal(n / 10) + [DigitChar(n % 10)]
  }

  /** The number a digit string denotes. */
  function ParseDecimal(s: string): nat
    requires AllIn(Digits, s)
  {
    if s == [] then 0 else ParseDecimal(s[..|s| - 1]) * 10 + DigitValue(s[|s| - 1])
  }

  /** Reading a rendered counter gives back the counter. */
  lemma {:induction false} DecimalRoundTrip(n: nat)
    ensures ParseDecimal(Decimal(n)) == n
  {
    if n >= 10 {
      DecimalRoundTrip(n / 10);
      var r := Decimal(n);
      assert r[..|r| - 1] == Decimal(n / 10);
    }
  }

  /** Different counters are shown differently. */
  lemma DecimalInjective(m: nat, n: nat)
    ensures Decimal(m) == Decimal(n) ==> m == n
  {
    DecimalRoundTrip(m);
    DecimalRoundTrip(n);
  }

  // ---------------------------------------------------------------------------
  // The reply

  datatype Attachment = Attachment(filename: string, data: seq<byte>)
  datatype EmbedAuthor = EmbedAuthor(name: string, url: string, iconUrl: string)
  datatype EmbedField = EmbedField(name: string, value: string, inline: bool)
  datatype Embed = Embed(author: EmbedAuthor, description: string, fields: seq<EmbedField>, colour: int)

  /** The kinds of mention the platform may turn into notifications. */
  datatype MentionKind = Users | Roles | Everyone

  /** `replyTo` is the id of the message replied to; `parse` the mention
      kinds that may notify anyone. */
  datatype ReplyPlan = ReplyPlan(attachments: seq<Attachment>, embed: Embed, replyTo: nat, parse: set<MentionKind>)

  const AttachmentName := "tiktok.mp4"
  const AccentColour := 0xF82054
  const ProfilePrefix := "https://tiktok.com/@"

  /** `"{name} (@{username})"`: the display name, then the handle in brackets. */
  function AuthorLine(a: VideoAuthor): (r: string)
    ensures |r| == |a.name| + |a.username| + 4
    ensures r[..|a.name|] == a.name
    ensures r[|a.name|..|a.name| + 3] == " (@"
    ensures r[|a.name| + 3..|r| - 1] == a.username
    ensures r[|r| - 1] == ')'
  {
    var n := |a.name|;
    var line := a.name + " (@" + a.username + ")";
    assert line[..n] == a.name;
    assert line[n..n + 3] == " (@";
    assert line[n + 3..|line| - 1] == a.username;
    line
  }

  /** The author's profile page: the profile prefix followed by the handle. */
  function ProfileUrl(a: VideoAuthor): (r: string)
    ensures |r| == |ProfilePrefix| + |a.username|
    ensures r[..|ProfilePrefix|] == ProfilePrefix
    ensures r[|ProfilePrefix|..] == a.username
  {
    ProfilePrefix + a.username
  }

  /** So two authors share a profile link exactly when they share a handle. */
  lemma ProfileUrlNamesHandle(a: VideoAuthor, b: VideoAuthor)
    ensures ProfileUrl(a) == ProfileUrl(b) <==> a.username == b.username
  {
  }

  /** The reply to message `original` for record `t` and downloaded `media`. */
  function BuildReply(original: nat, t: TikTok, media: seq<byte>): (r: ReplyPlan)
    ensures r.attachments == [Attachment(AttachmentName, media)]
    ensures r.embed.author == EmbedAuthor(AuthorLine(t.author), ProfileUrl(t.author), AvatarUrl(t.author))
    ensures r.embed.description == t.description
    ensures |r.embed.fields| == 3
    ensures r.embed.fields[0].name == "Likes" && r.embed.fields[1].name == "Comments" && r.embed.fields[2].name == "Views"
    ensures forall f :: f in r.embed.fields ==> f.inline && AllIn(Digits, f.value)
    ensures ParseDecimal(r.embed.fields[0].value) == t.statistics.likes as nat
    ensures ParseDecimal(r.embed.fields[1].value) == t.statistics.comments as nat
    ensures ParseDecimal(r.embed.fields[2].value) == t.statistics.views as nat
    ensures r.embed.fields[0].value == Decimal(t.statistics.likes as nat)
    ensures r.embed.fields[1].value == Decimal(t.statistics.comments as nat)
    ensures r.embed.fields[2].value == Decimal(t.statistics.views as nat)
    ensures r.embed.colour == AccentColour
    ensures r.replyTo == original && r.parse == {}
  {
    var stats := t.statistics;
    DecimalRoundTrip(stats.likes as nat);
    DecimalRoundTrip(stats.comments as nat);
    DecimalRoundTrip(stats.views as nat);
    ReplyPlan(
      [Attachment(AttachmentName, media)],
      Embed(
        EmbedAuthor(AuthorLine(t.author), ProfileUrl(t.author), AvatarUrl(t.author)),
        t.description,
        [ EmbedField("Likes", Decimal(stats.likes as nat), true),
          EmbedField("Comments", Decimal(stats.comments as nat), true),
          EmbedField("Views", Decimal(stats.views as nat), true) ],
        AccentColour),
      original,
      {})
  }
}
