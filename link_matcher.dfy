/** The two link recognisers of `TikTok::valid_urls` (src/tiktok.rs), written out
    by hand for exactly these two languages:

      desktop:  https?://(?:www\.|m\.)?tiktok\.com/(?:embed|@[\w\.-]+/video|v)/(\d+)
      short:    https?://(?:vm|vt)\.tiktok\.com/(\w+)

    Both are searched unanchored, leftmost match first. `\w` and `\d` are read
    as their ASCII classes. A matcher at a fixed start returns the parse of the
    matched text, so what it accepted can be stated as a rendering of that parse.
*/
module LinkMatcher {
  import opened Basics
  import opened Chars

  // ---------------------------------------------------------------------------
  // Greedy runs

  /** Where a greedy `k+` (or `k*`) starting at `i` stops: the end of the
      longest run of `k` characters beginning at `i`. */
  function RunEnd(s: string, i: nat, k: CharClass): (j: nat)
    requires i <= |s|
    ensures i <= j <= |s|
    ensures AllIn(k, s[i..j])
    ensures j == |s| || !InClass(k, s[j])
    decreases |s| - i
  {
    if i < |s| && InClass(k, s[i]) then
      var j := RunEnd(s, i + 1, k);
      assert s[i..j] == [s[i]] + s[i + 1..j];
      j
    else i
  }

  /** A greedy run reaches at least as far as any run of `k` characters. */
  lemma RunEndCovers(s: string, i: nat, j: nat, k: CharClass)
    requires i <= j <= |s|
    requires AllIn(k, s[i..j])
    ensures RunEnd(s, i, k) >= j
  {
    AllInSlice(s, i, j, k);
  }

  /** A run of `k` characters that cannot be extended is the one `RunEnd` finds. */
  lemma RunEndUnique(s: string, i: nat, j: nat, k: CharClass)
    requires i <= j <= |s|
    requires AllIn(k, s[i..j])
    requires j == |s| || !InClass(k, s[j])
    ensures RunEnd(s, i, k) == j
  {
    AllInSlice(s, i, j, k);
    AllInSlice(s, i, RunEnd(s, i, k), k);
  }

  // ---------------------------------------------------------------------------
  // Literal prefixes

  lemma PrefixSplit(s: string, i: nat, a: string, b: string)
    ensures HasPrefixAt(s, i, a + b) <==> HasPrefixAt(s, i, a) && HasPrefixAt(s, i + |a|, b)
  {
    if HasPrefixAt(s, i, a) && HasPrefixAt(s, i + |a|, b) {
      assert s[i..i + |a + b|] == s[i..i + |a|] + s[i + |a|..i + |a| + |b|];
    }
    if HasPrefixAt(s, i, a + b) {
      assert s[i..i + |a|] == s[i..i + |a + b|][..|a|];
      assert s[i + |a|..i + |a| + |b|] == s[i..i + |a + b|][|a|..];
    }
  }

  /** A literal cannot start at `i` when one of its characters is absent. */
  lemma NotPrefixAt(s: string, i: nat, w: string, p: nat)
    requires p < |w| && i + p < |s| && s[i + p] != w[p]
    ensures !HasPrefixAt(s, i, w)
  {
  }

  lemma PrefixChar(s: string, i: nat, w: string, p: nat)
    requires HasPrefixAt(s, i, w) && p < |w|
    ensures s[i + p] == w[p]
  {
    assert s[i..i + |w|][p] == s[i + p];
  }

  // ---------------------------------------------------------------------------
  // The parts of a link

  datatype Scheme = Http | Https

  function SchemeText(sc: Scheme): string
  {
    match sc
    case Http => "http://"
    case Https => "https://"
  }

  /** `https?://` at `i`: the scheme found and the position after it. A scheme
      is found exactly when one is present, and it is the one present. */
  function MatchScheme(s: string, i: nat): (r: Option<(Scheme, nat)>)
    ensures r.Some? ==> HasPrefixAt(s, i, SchemeText(r.value.0)) && r.value.1 == i + |SchemeText(r.value.0)|
  {
    if HasPrefixAt(s, i, "https://") then
      Some((Https, i + 8))
    else if HasPrefixAt(s, i, "http://") then
      Some((Http, i + 7))
    else
      None
  }

  lemma SchemesDiffer(s: string, i: nat)
    ensures !(HasPrefixAt(s, i, "http://") && HasPrefixAt(s, i, "https://"))
  {
    if HasPrefixAt(s, i, "https://") {
      PrefixChar(s, i, "https://", 4);
    }
  }

  /** A scheme is found whenever one is present, and it is the one present. */
  lemma MatchSchemeComplete(s: string, i: nat, sc: Scheme)
    requires HasPrefixAt(s, i, SchemeText(sc))
    ensures MatchScheme(s, i) == Some((sc, i + |SchemeText(sc)|))
  {
    SchemesDiffer(s, i);
  }

  /** The optional `www.` or `m.` in front of the desktop domain. */
  datatype Host = Bare | Www | M

  function HostText(h: Host): string
  {
    match h
    case Bare => ""
    case Www => "www."
    case M => "m."
  }

  /** The three desktop path shapes before `/<id>`. */
  datatype VideoPath = Embed | UserVideo(handle: string) | V

  function PathText(p: VideoPath): string
  {
    match p
    case Embed => "embed"
    case UserVideo(handle) => "@" + handle + "/video"
    case V => "v"
  }

  /** A desktop link, as its parts. */
  datatype DesktopUrl = DesktopUrl(scheme: Scheme, host: Host, path: VideoPath, id: string)

  /** What follows the domain: the path shape, `/` and the id. */
  function TailText(path: VideoPath, id: string): string
  {
    PathText(path) + "/" + id
  }

  /** What follows the scheme: the optional subdomain, the domain and the tail. */
  function HostedText(h: Host, path: VideoPath, id: string): string
  {
    HostText(h) + "tiktok.com/" + TailText(path, id)
  }

  function DesktopText(u: DesktopUrl): string
  {
    SchemeText(u.scheme) + HostedText(u.host, u.path, u.id)
  }

  /** Everything of a desktop link before its id. */
  function DesktopStem(u: DesktopUrl): string
  {
    SchemeText(u.scheme) + HostText(u.host) + "tiktok.com/" + PathText(u.path) + "/"
  }

  lemma DesktopTextSplit(u: DesktopUrl)
    ensures DesktopText(u) == DesktopStem(u) + u.id
  {
  }

  /** The parts a tail may have: a non-empty digit id and, in the
      `@handle/video` shape, a non-empty handle over `[\w.-]`. */
  predicate TailWellFormed(path: VideoPath, id: string)
  {
    |id| > 0 && AllIn(Digits, id) &&
    (path.UserVideo? ==> |path.handle| > 0 && AllIn(HandleChars, path.handle))
  }

  predicate DesktopWellFormed(u: DesktopUrl)
  {
    TailWellFormed(u.path, u.id)
  }

  /** The `vm.` or `vt.` subdomain of a short link. */
  datatype ShortHost = Vm | Vt

  function ShortHostText(h: ShortHost): string
  {
    match h
    case Vm => "vm."
    case Vt => "vt."
  }

  /** A short link, as its parts. */
  datatype ShortUrl = ShortUrl(scheme: Scheme, host: ShortHost, code: string)

  /** Everything of a short link before its code. */
  function ShortStem(u: ShortUrl): string
  {
    SchemeText(u.scheme) + ShortHostText(u.host) + "tiktok.com/"
  }

  function ShortText(u: ShortUrl): string
  {
    ShortStem(u) + u.code
  }

  predicate ShortWellFormed(u: ShortUrl)
  {
    |u.code| > 0 && AllIn(Word, u.code)
  }

  /** A match: where it starts, what was parsed and where it ends. */
  datatype DesktopMatch = DesktopMatch(start: nat, url: DesktopUrl, end: nat)
  datatype ShortMatch = ShortMatch(start: nat, url: ShortUrl, end: nat)

  // ---------------------------------------------------------------------------
  // Matching at a fixed start

  /** `(?:embed|@[\w\.-]+/video|v)` at `k`: the shape and the position after it.
      The handle run is greedy; since `/` is not a handle character, no shorter
      handle could be followed by `/video` either. */
  function MatchPath(s: string, k: nat): (r: Option<(VideoPath, nat)>)
    requires k <= |s|
    ensures r.Some? ==> k < r.value.1 <= |s|
  {
    if HasPrefixAt(s, k, "embed") then
      Some((Embed, k + 5))
    else if HasPrefixAt(s, k, "@") then
      var e := RunEnd(s, k + 1, HandleChars);
      if e > k + 1 && HasPrefixAt(s, e, "/video") then Some((UserVideo(s[k + 1..e]), e + 6)) else None
    else if HasPrefixAt(s, k, "v") then
      Some((V, k + 1))
    else
      None
  }

  /** `(?:embed|@[\w\.-]+/video|v)/(\d+)` at `k`; the id is the greedy `\d+`. */
  function MatchTailAt(s: string, k: nat): (r: Option<(VideoPath, string, nat)>)
    requires k <= |s|
    ensures r.Some? ==> k < r.value.2 <= |s|
  {
    match MatchPath(s, k)
    case None => None
    case Some((path, p)) =>
      if !HasPrefixAt(s, p, "/") then None
      else
        var e := RunEnd(s, p + 1, Digits);
        if e == p + 1 then None else Some((path, s[p + 1..e], e))
  }

  /** The optional subdomain at `j`. The first character decides which one
      can be followed by the domain, so no alternative needs to be tried again. */
  function MatchHost(s: string, j: nat): (h: Host)
    requires j <= |s|
    ensures HasPrefixAt(s, j, HostText(h))
  {
    if HasPrefixAt(s, j, "www.") then Www else if HasPrefixAt(s, j, "m.") then M else Bare
  }

  lemma MatchHostComplete(s: string, j: nat, h: Host, k: nat)
    requires j <= |s| && k == j + |HostText(h)|
    requires HasPrefixAt(s, j, HostText(h)) && HasPrefixAt(s, k, "tiktok.com/")
    ensures MatchHost(s, j) == h
  {
    match h {
      case Www =>
      case M =>
        PrefixChar(s, j, "m.", 0);
        NotPrefixAt(s, j, "www.", 0);
      case Bare =>
        PrefixChar(s, j, "tiktok.com/", 0);
        NotPrefixAt(s, j, "www.", 0);
        NotPrefixAt(s, j, "m.", 0);
    }
  }

  /** `(?:www\.|m\.)?tiktok\.com/` and the tail at `j`. */
  function MatchHostedAt(s: string, j: nat): (r: Option<(Host, VideoPath, string, nat)>)
    requires j <= |s|
    ensures r.Some? ==> j < r.value.3 <= |s|
  {
    var host := MatchHost(s, j);
    var k := j + |HostText(host)|;
    if !HasPrefixAt(s, k, "tiktok.com/") then None
    else
      match MatchTailAt(s, k + 11)
      case None => None
      case Some((path, id, e)) => Some((host, path, id, e))
  }

  /** The desktop pattern anchored at `i`. */
  function MatchDesktopAt(s: string, i: nat): (r: Option<DesktopMatch>)
    requires i <= |s|
    ensures r.Some? ==> r.value.start == i && i < r.value.end <= |s|
  {
    var scheme := MatchScheme(s, i);
    if scheme.None? then None
    else
      var rest := MatchHostedAt(s, scheme.value.1);
      if rest.None? then None
      else
        var (host, path, id, e) := rest.value;
        Some(DesktopMatch(i, DesktopUrl(scheme.value.0, host, path, id), e))
  }

  /** The desktop matcher assembles the results of its two stages. */
  lemma MatchDesktopAtParts(s: string, i: nat, u: DesktopUrl, j: nat, e: nat)
    requires i <= |s| && MatchScheme(s, i) == Some((u.scheme, j))
    requires MatchHostedAt(s, j) == Some((u.host, u.path, u.id, e))
    ensures MatchDesktopAt(s, i) == Some(DesktopMatch(i, u, e))
  {
  }

  /** The short pattern anchored at `i`. The code is the greedy `\w+`. */
  function MatchShortAt(s: string, i: nat): (r: Option<ShortMatch>)
    requires i <= |s|
    ensures r.Some? ==> r.value.start == i && i < r.value.end <= |s|
  {
    match MatchScheme(s, i)
    case None => None
    case Some((scheme, j)) =>
      if !HasPrefixAt(s, j, "vm.") && !HasPrefixAt(s, j, "vt.") then None
      else
        var host := if HasPrefixAt(s, j, "vm.") then Vm else Vt;
        if !HasPrefixAt(s, j + 3, "tiktok.com/") then None
        else
          var c := j + 14;
          var e := RunEnd(s, c, Word);
          if e == c then None
          else Some(ShortMatch(i, ShortUrl(scheme, host, s[c..e]), e))
  }

  // ---------------------------------------------------------------------------
  // Leftmost search (what `is_match` and `captures` do)

  /** No desktop match starts anywhere in `[i, j)`. */
  predicate NoDesktopIn(s: string, i: nat, j: nat)
    requires j <= |s| + 1
    decreases j - i
  {
    i >= j || (MatchDesktopAt(s, i).None? && NoDesktopIn(s, i + 1, j))
  }

  /** No short-link match starts anywhere in `[i, j)`. */
  predicate NoShortIn(s: string, i: nat, j: nat)
    requires j <= |s| + 1
    decreases j - i
  {
    i >= j || (MatchShortAt(s, i).None? && NoShortIn(s, i + 1, j))
  }

  /** The leftmost desktop match starting at or after `i`. */
  function FindDesktopFrom(s: string, i: nat): (r: Option<DesktopMatch>)
    requires i <= |s|
    ensures r.Some? ==> i <= r.value.start <= |s| && MatchDesktopAt(s, r.value.start) == r
    ensures r.Some? ==> NoDesktopIn(s, i, r.value.start)
    ensures r.None? ==> NoDesktopIn(s, i, |s| + 1)
    decreases |s| - i
  {
    var here := MatchDesktopAt(s, i);
    if here.Some? then here
    else if i == |s| then None
    else FindDesktopFrom(s, i + 1)
  }

  /** The leftmost short-link match starting at or after `i`. */
  function FindShortFrom(s: string, i: nat): (r: Option<ShortMatch>)
    requires i <= |s|
    ensures r.Some? ==> i <= r.value.start <= |s| && MatchShortAt(s, r.value.start) == r
    ensures r.Some? ==> NoShortIn(s, i, r.value.start)
    ensures r.None? ==> NoShortIn(s, i, |s| + 1)
    decreases |s| - i
  {
    var here := MatchShortAt(s, i);
    if here.Some? then here
    else if i == |s| then None
    else FindShortFrom(s, i + 1)
  }

  lemma {:induction false} NoDesktopInAt(s: string, i: nat, j: nat, k: nat)
    requires j <= |s| + 1 && NoDesktopIn(s, i, j) && i <= k < j
    ensures MatchDesktopAt(s, k).None?
    decreases j - i
  {
    if k > i {
      NoDesktopInAt(s, i + 1, j, k);
    }
  }

  lemma {:induction false} NoShortInAt(s: string, i: nat, j: nat, k: nat)
    requires j <= |s| + 1 && NoShortIn(s, i, j) && i <= k < j
    ensures MatchShortAt(s, k).None?
    decreases j - i
  {
    if k > i {
      NoShortInAt(s, i + 1, j, k);
    }
  }

  // ---------------------------------------------------------------------------
  // What a match means

  /** `@`, a handle run and `/video`, read as the path text. */
  lemma HandlePathText(s: string, k: nat, e: nat)
    requires k < e <= |s| && HasPrefixAt(s, k, "@") && HasPrefixAt(s, e, "/video")
    ensures HasPrefixAt(s, k, PathText(UserVideo(s[k + 1..e])))
  {
    var h := s[k + 1..e];
    PrefixSplit(s, k, "@", h);
    PrefixSplit(s, k, "@" + h, "/video");
  }

  lemma MatchPathSound(s: string, k: nat, path: VideoPath, p: nat)
    requires k <= |s| && MatchPath(s, k) == Some((path, p))
    ensures HasPrefixAt(s, k, PathText(path))
    ensures p == k + |PathText(path)|
    ensures path.UserVideo? ==> |path.handle| > 0 && AllIn(HandleChars, path.handle)
  {
    if HasPrefixAt(s, k, "embed") {
      assert path == Embed && p == k + 5;
    } else if HasPrefixAt(s, k, "@") {
      var e := RunEnd(s, k + 1, HandleChars);
      assert path == UserVideo(s[k + 1..e]) && HasPrefixAt(s, e, "/video") && p == e + 6;
      HandlePathText(s, k, e);
    } else {
      assert path == V && p == k + 1;
    }
  }

  lemma MatchPathComplete(s: string, k: nat, path: VideoPath)
    requires k <= |s| && HasPrefixAt(s, k, PathText(path))
    requires path.UserVideo? ==> |path.handle| > 0 && AllIn(HandleChars, path.handle)
    ensures MatchPath(s, k) == Some((path, k + |PathText(path)|))
  {
    match path
    case Embed =>
    case UserVideo(h) =>
      PrefixSplit(s, k, "@" + h, "/video");
      PrefixSplit(s, k, "@", h);
      PrefixChar(s, k, "@", 0);
      NotPrefixAt(s, k, "embed", 0);
      var e := k + 1 + |h|;
      assert s[k + 1..e] == h;
      PrefixChar(s, e, "/video", 0);
      RunEndUnique(s, k + 1, e, HandleChars);
    case V =>
      PrefixChar(s, k, "v", 0);
      NotPrefixAt(s, k, "embed", 0);
      NotPrefixAt(s, k, "@", 0);
  }

  lemma MatchTailSound(s: string, k: nat, path: VideoPath, id: string, e: nat)
    requires k <= |s| && MatchTailAt(s, k) == Some((path, id, e))
    ensures TailWellFormed(path, id)
    ensures HasPrefixAt(s, k, TailText(path, id))
    ensures e == k + |TailText(path, id)|
    ensures e == |s| || !IsDigit(s[e])
  {
    var p := MatchPath(s, k).value.1;
    MatchPathSound(s, k, path, p);
    assert id == s[p + 1..e];
    PrefixSplit(s, k, PathText(path), "/");
    PrefixSplit(s, k, PathText(path) + "/", id);
  }

  lemma MatchTailComplete(s: string, k: nat, path: VideoPath, id: string, p: nat, e: nat)
    requires k <= |s| && TailWellFormed(path, id)
    requires p == k + |PathText(path)| && e == p + 1 + |id|
    requires HasPrefixAt(s, k, PathText(path)) && HasPrefixAt(s, p, "/") && HasPrefixAt(s, p + 1, id)
    requires e == |s| || !IsDigit(s[e])
    ensures MatchTailAt(s, k) == Some((path, id, e))
  {
    MatchPathComplete(s, k, path);
    assert s[p + 1..e] == id;
    RunEndUnique(s, p + 1, e, Digits);
    MatchTailAtParts(s, k, path, p, e);
  }

  /** The tail matcher assembles the path and the digit run after `/`. */
  lemma MatchTailAtParts(s: string, k: nat, path: VideoPath, p: nat, e: nat)
    requires k <= |s| && MatchPath(s, k) == Some((path, p)) && HasPrefixAt(s, p, "/")
    requires p + 1 < e && RunEnd(s, p + 1, Digits) == e
    ensures MatchTailAt(s, k) == Some((path, s[p + 1..e], e))
  {
  }

  lemma MatchHostedSound(s: string, j: nat, host: Host, path: VideoPath, id: string, e: nat)
    requires j <= |s| && MatchHostedAt(s, j) == Some((host, path, id, e))
    ensures TailWellFormed(path, id)
    ensures HasPrefixAt(s, j, HostedText(host, path, id))
    ensures e == j + |HostedText(host, path, id)|
    ensures e == |s| || !IsDigit(s[e])
  {
    var k := j + |HostText(host)|;
    assert host == MatchHost(s, j) && HasPrefixAt(s, k, "tiktok.com/");
    assert MatchTailAt(s, k + 11) == Some((path, id, e));
    MatchTailSound(s, k + 11, path, id, e);
    HostedPrefix(s, j, host, TailText(path, id));
  }

  /** The subdomain, the domain and the tail, each written in turn, make up
      the hosted part. */
  lemma HostedPrefix(s: string, j: nat, host: Host, tail: string)
    requires HasPrefixAt(s, j, HostText(host))
    requires HasPrefixAt(s, j + |HostText(host)|, "tiktok.com/")
    requires HasPrefixAt(s, j + |HostText(host)| + 11, tail)
    ensures HasPrefixAt(s, j, HostText(host) + "tiktok.com/" + tail)
  {
    PrefixSplit(s, j, HostText(host), "tiktok.com/");
    PrefixSplit(s, j, HostText(host) + "tiktok.com/", tail);
  }

  /** The hosted matcher assembles the subdomain, the domain and the tail. */
  lemma MatchHostedAtParts(s: string, j: nat, host: Host, path: VideoPath, id: string, k: nat, e: nat)
    requires j <= |s| && k == j + |HostText(host)|
    requires MatchHost(s, j) == host && HasPrefixAt(s, k, "tiktok.com/")
    requires MatchTailAt(s, k + 11) == Some((path, id, e))
    ensures MatchHostedAt(s, j) == Some((host, path, id, e))
  {
  }

  /** A tail written at `k`, taken apart into its pieces. */
  lemma TailParts(s: string, k: nat, path: VideoPath, id: string, p: nat)
    requires HasPrefixAt(s, k, TailText(path, id)) && p == k + |PathText(path)|
    ensures HasPrefixAt(s, k, PathText(path)) && HasPrefixAt(s, p, "/") && HasPrefixAt(s, p + 1, id)
    ensures |TailText(path, id)| == |PathText(path)| + 1 + |id|
  {
    PrefixSplit(s, k, PathText(path) + "/", id);
    PrefixSplit(s, k, PathText(path), "/");
  }

  /** A hosted part written at `j`, taken apart into its pieces. */
  lemma HostedParts(s: string, j: nat, host: Host, path: VideoPath, id: string, k: nat)
    requires HasPrefixAt(s, j, HostedText(host, path, id)) && k == j + |HostText(host)|
    ensures HasPrefixAt(s, j, HostText(host)) && HasPrefixAt(s, k, "tiktok.com/")
    ensures HasPrefixAt(s, k + 11, TailText(path, id))
    ensures |HostedText(host, path, id)| == |HostText(host)| + 11 + |TailText(path, id)|
  {
    PrefixSplit(s, j, HostText(host) + "tiktok.com/", TailText(path, id));
    PrefixSplit(s, j, HostText(host), "tiktok.com/");
  }

  lemma MatchHostedComplete(s: string, j: nat, host: Host, path: VideoPath, id: string, e: nat)
    requires j <= |s| && TailWellFormed(path, id) && HasPrefixAt(s, j, HostedText(host, path, id))
    requires e == j + |HostedText(host, path, id)|
    requires e == |s| || !IsDigit(s[e])
    ensures MatchHostedAt(s, j) == Some((host, path, id, e))
  {
    var k := j + |HostText(host)|;
    var p := k + 11 + |PathText(path)|;
    HostedParts(s, j, host, path, id, k);
    TailParts(s, k + 11, path, id, p);
    MatchHostComplete(s, j, host, k);
    MatchTailComplete(s, k + 11, path, id, p, e);
    MatchHostedAtParts(s, j, host, path, id, k, e);
  }

  /** Whatever the desktop matcher accepts at `i` is a well-formed desktop
      link written out at `i`, and its id is a digit run that cannot be
      extended (the `\d+` is greedy). */
  lemma MatchDesktopSound(s: string, i: nat, m: DesktopMatch)
    requires i <= |s| && MatchDesktopAt(s, i) == Some(m)
    ensures DesktopWellFormed(m.url)
    ensures HasPrefixAt(s, i, DesktopText(m.url))
    ensures m.end == i + |DesktopText(m.url)|
    ensures m.end == |s| || !IsDigit(s[m.end])
  {
    var u := m.url;
    MatchHostedSound(s, MatchScheme(s, i).value.1, u.host, u.path, u.id, m.end);
    PrefixSplit(s, i, SchemeText(u.scheme), HostedText(u.host, u.path, u.id));
  }

  /** A well-formed desktop link written at `i`, whose id is not followed by
      another digit, is matched at `i` with exactly its own parts: parsing
      inverts `DesktopText`. */
  lemma MatchDesktopComplete(s: string, i: nat, u: DesktopUrl, e: nat)
    requires DesktopWellFormed(u) && HasPrefixAt(s, i, DesktopText(u)) && e == i + |DesktopText(u)|
    requires e == |s| || !IsDigit(s[e])
    ensures MatchDesktopAt(s, i) == Some(DesktopMatch(i, u, e))
  {
    PrefixSplit(s, i, SchemeText(u.scheme), HostedText(u.host, u.path, u.id));
    MatchDesktopFromPieces(s, i, u, i + |SchemeText(u.scheme)|, e);
  }

  /** The same, from the scheme and the hosted part written one after the other. */
  lemma MatchDesktopFromPieces(s: string, i: nat, u: DesktopUrl, j: nat, e: nat)
    requires i <= |s| && TailWellFormed(u.path, u.id)
    requires j == i + |SchemeText(u.scheme)| && e == j + |HostedText(u.host, u.path, u.id)|
    requires HasPrefixAt(s, i, SchemeText(u.scheme)) && HasPrefixAt(s, j, HostedText(u.host, u.path, u.id))
    requires e == |s| || !IsDigit(s[e])
    ensures MatchDesktopAt(s, i) == Some(DesktopMatch(i, u, e))
  {
    MatchSchemeComplete(s, i, u.scheme);
    MatchHostedComplete(s, j, u.host, u.path, u.id, e);
    MatchDesktopAtParts(s, i, u, j, e);
  }

  /** A well-formed desktop link written at `i` is matched there even when
      more digits follow it: the match has the same scheme, host and path,
      and an id that extends the written one. */
  lemma MatchDesktopExtends(s: string, i: nat, u: DesktopUrl)
    requires DesktopWellFormed(u) && HasPrefixAt(s, i, DesktopText(u))
    ensures MatchDesktopAt(s, i).Some?
    ensures var v := MatchDesktopAt(s, i).value.url;
      v.scheme == u.scheme && v.host == u.host && v.path == u.path && u.id <= v.id
  {
    var stem := DesktopStem(u);
    var q := i + |stem|;
    DesktopTextSplit(u);
    PrefixSplit(s, i, stem, u.id);
    assert s[q..q + |u.id|] == u.id;
    RunEndCovers(s, q, q + |u.id|, Digits);
    var e := RunEnd(s, q, Digits);
    var w := u.(id := s[q..e]);
    assert u.id <= w.id by {
      assert w.id[..|u.id|] == u.id;
    }
    DesktopTextSplit(w);
    PrefixSplit(s, i, stem, w.id);
    MatchDesktopComplete(s, i, w, e);
  }

  /** Whatever the short matcher accepts at `i` is a well-formed short link
      written out at `i`, and its code is a word run that cannot be extended. */
  lemma MatchShortSound(s: string, i: nat, m: ShortMatch)
    requires i <= |s| && MatchShortAt(s, i) == Some(m)
    ensures ShortWellFormed(m.url)
    ensures HasPrefixAt(s, i, ShortText(m.url))
    ensures m.end == i + |ShortText(m.url)|
    ensures m.end == |s| || !IsWordChar(s[m.end])
  {
    var u := m.url;
    var j := MatchScheme(s, i).value.1;
    assert HasPrefixAt(s, j, ShortHostText(u.host));
    assert u.code == s[j + 14..m.end];
    var a, b := SchemeText(u.scheme), ShortHostText(u.host);
    PrefixSplit(s, i, a, b);
    PrefixSplit(s, i, a + b, "tiktok.com/");
    PrefixSplit(s, i, ShortStem(u), u.code);
  }

  /** A well-formed short link written at `i`, whose code is not followed by
      another word character, is matched at `i` with exactly its own parts. */
  lemma MatchShortComplete(s: string, i: nat, u: ShortUrl)
    requires ShortWellFormed(u) && HasPrefixAt(s, i, ShortText(u))
    requires i + |ShortText(u)| == |s| || !IsWordChar(s[i + |ShortText(u)|])
    ensures MatchShortAt(s, i) == Some(ShortMatch(i, u, i + |ShortText(u)|))
  {
    var j := i + |SchemeText(u.scheme)|;
    ShortParts(s, i, u);
    MatchSchemeComplete(s, i, u.scheme);
    if u.host == Vt {
      PrefixChar(s, j, "vt.", 1);
      NotPrefixAt(s, j, "vm.", 1);
    }
    var q := j + 14;
    var e := q + |u.code|;
    assert s[q..e] == u.code;
    RunEndUnique(s, q, e, Word);
  }

  /** A short link written at `i`, taken apart into its pieces. */
  lemma ShortParts(s: string, i: nat, u: ShortUrl)
    requires HasPrefixAt(s, i, ShortText(u))
    ensures var j := i + |SchemeText(u.scheme)|;
      && HasPrefixAt(s, i, SchemeText(u.scheme))
      && HasPrefixAt(s, j, ShortHostText(u.host))
      && HasPrefixAt(s, j + 3, "tiktok.com/")
      && HasPrefixAt(s, j + 14, u.code)
      && |ShortText(u)| == j + 14 + |u.code| - i
  {
    var a, b := SchemeText(u.scheme), ShortHostText(u.host);
    PrefixSplit(s, i, ShortStem(u), u.code);
    PrefixSplit(s, i, a + b, "tiktok.com/");
    PrefixSplit(s, i, a, b);
  }

  /** At any one start the two patterns exclude each other: after the scheme
      the short form needs a `v`, the desktop form a `w`, `m` or `t`. */
  lemma DesktopShortExclusive(s: string, i: nat)
    requires i <= |s|
    ensures !(MatchDesktopAt(s, i).Some? && MatchShortAt(s, i).Some?)
  {
    if MatchShortAt(s, i).Some? {
      var j := MatchScheme(s, i).value.1;
      assert HasPrefixAt(s, j, "vm.") || HasPrefixAt(s, j, "vt.");
      assert j < |s| && s[j] == 'v' by {
        if HasPrefixAt(s, j, "vm.") {
          PrefixChar(s, j, "vm.", 0);
        } else {
          PrefixChar(s, j, "vt.", 0);
        }
      }
      HostedNeedsNoV(s, j);
    }
  }

  /** The desktop form never continues its scheme with a `v`. */
  lemma HostedNeedsNoV(s: string, j: nat)
    requires j < |s| && s[j] == 'v'
    ensures MatchHostedAt(s, j).None?
  {
    NotPrefixAt(s, j, "www.", 0);
    NotPrefixAt(s, j, "m.", 0);
    assert MatchHost(s, j) == Bare;
    NotPrefixAt(s, j, "tiktok.com/", 0);
  }

  // ---------------------------------------------------------------------------
  // Whole-text results

  /** `Regex::captures` for the desktop pattern: the first match in the text. */
  function FindDesktop(s: string): (r: Option<DesktopMatch>)
    ensures r.Some? ==> r.value.start <= |s| && MatchDesktopAt(s, r.value.start) == r
  {
    FindDesktopFrom(s, 0)
  }

  /** `Regex::find` for the short-link pattern: the first match in the text. */
  function FindShort(s: string): (r: Option<ShortMatch>)
    ensures r.Some? ==> r.value.start <= |s| && MatchShortAt(s, r.value.start) == r
  {
    FindShortFrom(s, 0)
  }

  /** The search finds the leftmost match: one where it reports it, and none
      before it (none at all when it reports none). */
  lemma FindDesktopLeftmost(s: string)
    ensures FindDesktop(s).Some? ==> MatchDesktopAt(s, FindDesktop(s).value.start) == FindDesktop(s)
    ensures FindDesktop(s).Some? ==> forall k :: 0 <= k < FindDesktop(s).value.start ==> MatchDesktopAt(s, k).None?
    ensures FindDesktop(s).None? ==> forall k :: 0 <= k <= |s| ==> MatchDesktopAt(s, k).None?
  {
    var r := FindDesktop(s);
    var j := if r.Some? then r.value.start else |s| + 1;
    forall k | 0 <= k < j
      ensures MatchDesktopAt(s, k).None?
    {
      NoDesktopInAt(s, 0, j, k);
    }
  }

  lemma FindShortLeftmost(s: string)
    ensures FindShort(s).Some? ==> MatchShortAt(s, FindShort(s).value.start) == FindShort(s)
    ensures FindShort(s).Some? ==> forall k :: 0 <= k < FindShort(s).value.start ==> MatchShortAt(s, k).None?
    ensures FindShort(s).None? ==> forall k :: 0 <= k <= |s| ==> MatchShortAt(s, k).None?
  {
    var r := FindShort(s);
    var j := if r.Some? then r.value.start else |s| + 1;
    forall k | 0 <= k < j
      ensures MatchShortAt(s, k).None?
    {
      NoShortInAt(s, 0, j, k);
    }
  }

  /** Capture group 1 of the leftmost desktop match, if there is one. */
  function DesktopId(s: string): (r: Option<string>)
    ensures r.Some? <==> FindDesktop(s).Some?
    ensures r.Some? ==> r.value == FindDesktop(s).value.url.id
    ensures r.Some? ==> |r.value| > 0 && AllIn(Digits, r.value)
  {
    match FindDesktop(s)
    case None => None
    case Some(m) =>
      MatchDesktopSound(s, m.start, m);
      Some(m.url.id)
  }

  /** Capture group 0 (the whole matched URL) of the leftmost short match. */
  function ShortLink(s: string): (r: Option<string>)
    ensures r.Some? <==> FindShort(s).Some?
    ensures r.Some? ==> ShortWellFormed(FindShort(s).value.url) && r.value == ShortText(FindShort(s).value.url)
  {
    match FindShort(s)
    case None => None
    case Some(m) =>
      MatchShortSound(s, m.start, m);
      Some(s[m.start..m.end])
  }

  /** Parsing a rendered desktop link gives back its parts, at position 0. */
  lemma DesktopRoundTrip(u: DesktopUrl)
    requires DesktopWellFormed(u)
    ensures FindDesktop(DesktopText(u)) == Some(DesktopMatch(0, u, |DesktopText(u)|))
  {
    var t := DesktopText(u);
    assert HasPrefixAt(t, 0, t);
    MatchDesktopComplete(t, 0, u, |t|);
  }

  /** The extracted id does not depend on whether `www.`, `m.` or neither is present. */
  lemma DesktopIdIgnoresHost(u: DesktopUrl, h: Host)
    requires DesktopWellFormed(u)
    ensures DesktopId(DesktopText(u.(host := h))) == Some(u.id)
  {
    DesktopRoundTrip(u.(host := h));
  }

  /** Parsing a rendered short link gives back its parts, and the whole link
      is the URL that is probed. */
  lemma ShortRoundTrip(u: ShortUrl)
    requires ShortWellFormed(u)
    ensures FindShort(ShortText(u)) == Some(ShortMatch(0, u, |ShortText(u)|))
    ensures ShortLink(ShortText(u)) == Some(ShortText(u))
  {
    var t := ShortText(u);
    assert HasPrefixAt(t, 0, t);
    MatchShortComplete(t, 0, u);
    assert t[0..|t|] == t;
  }
}
