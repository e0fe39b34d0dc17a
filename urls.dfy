/** How the player turns a user's input into a URL and a URL into track
    metadata. The network providers are oracles; what is modelled is the
    URL-shape dispatch around them and the guarantee that resolution never
    fails and never changes the URL. */
module Resolution {
  import opened MusicTypes

  predicate HasPrefix(s: string, p: string) {
    |p| <= |s| && s[..|p|] == p
  }

  /** The `^https?://` test. */
  predicate IsHttpUrl(s: string) {
    HasPrefix(s, "http://") || HasPrefix(s, "https://")
  }

  /** `s` with a leading `http://` or `https://` removed, if there is one. */
  function DropScheme(s: string): (r: string)
    ensures |r| <= |s| && s[|s| - |r|..] == r
    ensures IsHttpUrl(s) ==> |r| < |s|
  {
    if HasPrefix(s, "https://") then s[8..]
    else if HasPrefix(s, "http://") then s[7..]
    else s
  }

  /** `^(https?://)?(www\.)?(youtube\.com|youtu\.be)/`. Both optional groups
      can be decided by a prefix test, since neither `www.` nor the host
      names begin with `h`, and the host names do not begin with `www.`. */
  predicate IsYouTubeUrl(s: string) {
    var a := DropScheme(s);
    var b := if HasPrefix(a, "www.") then a[4..] else a;
    HasPrefix(b, "youtube.com/") || HasPrefix(b, "youtu.be/")
  }

  /** `^https?://(soundcloud\.com|snd\.sc)/`. */
  predicate IsSoundCloudUrl(s: string) {
    IsHttpUrl(s) &&
    var a := DropScheme(s);
    HasPrefix(a, "soundcloud.com/") || HasPrefix(a, "snd.sc/")
  }

  /** `^https?://open\.spotify\.com/(track|album|playlist)/`. */
  predicate IsSpotifyUrl(s: string) {
    IsHttpUrl(s) &&
    var a := DropScheme(s);
    HasPrefix(a, "open.spotify.com/track/") ||
    HasPrefix(a, "open.spotify.com/album/") ||
    HasPrefix(a, "open.spotify.com/playlist/")
  }

  /** A prefix made of two parts is the first part followed by a prefix
      of what comes after it. */
  lemma HasPrefixConcat(s: string, a: string, b: string)
    ensures HasPrefix(s, a + b) <==> HasPrefix(s, a) && HasPrefix(s[|a|..], b)
  {
    if HasPrefix(s, a + b) {
      assert s[..|a|] == (a + b)[..|a|] == a;
      assert s[|a|..][..|b|] == s[..|a + b|][|a|..] == b;
    }
    if HasPrefix(s, a) && HasPrefix(s[|a|..], b) {
      assert s[..|a + b|] == s[..|a|] + s[|a|..][..|b|];
    }
  }

  /** One way of beginning a string allowed by a pattern: one choice per
      group, written one after the other. */
  function Alternative(scheme: string, www: string, host: string): string {
    scheme + www + host
  }

  /** A string that differs from `p` at some position within both does
      not begin with `p`. */
  lemma DiffersAt(s: string, p: string, i: nat)
    requires i < |p| && i < |s| && s[i] != p[i]
    ensures !HasPrefix(s, p)
  {
    if |p| <= |s| {
      assert s[..|p|][i] == s[i];
    }
  }

  /** A string that begins with `p` agrees with `p` at each of its
      positions. */
  lemma AgreesAt(s: string, p: string, i: nat)
    requires HasPrefix(s, p) && i < |p|
    ensures s[i] == p[i]
  {
    assert s[..|p|][i] == s[i];
  }

  /** `DropScheme` removes exactly the scheme a string begins with; a
      string without one begins with something other than `h`. */
  lemma DropKnownScheme(s: string, scheme: string)
    requires scheme in ["", "http://", "https://"] && HasPrefix(s, scheme)
    requires scheme == "" ==> |s| > 0 && s[0] != 'h'
    ensures DropScheme(s) == s[|scheme|..]
  {
    if scheme == "" {
      DiffersAt(s, "https://", 0);
      DiffersAt(s, "http://", 0);
    } else if scheme == "http://" {
      AgreesAt(s, "http://", 4);
      DiffersAt(s, "https://", 4);
    }
  }

  /** The optional `www.` group is removed exactly when it is there, since
      no host name begins with `w`. */
  lemma StripKnownWww(a: string, www: string, host: string)
    requires www in ["", "www."] && |host| > 0 && host[0] != 'w'
    requires HasPrefix(a, www) && HasPrefix(a[|www|..], host)
    ensures (if HasPrefix(a, "www.") then a[4..] else a) == a[|www|..]
  {
    if www == "" {
      AgreesAt(a, host, 0);
      DiffersAt(a, "www.", 0);
    }
  }

  /** The choices the YouTube pattern offers: `(https?://)?`, `(www\.)?`
      and `(youtube\.com|youtu\.be)/`. */
  predicate YouTubeGroups(scheme: string, www: string, host: string) {
    scheme in ["", "http://", "https://"] && www in ["", "www."] && host in ["youtube.com/", "youtu.be/"]
  }

  /** The YouTube test accepts exactly the strings that begin with an
      optional `http://` or `https://`, then an optional `www.`, then
      `youtube.com/` or `youtu.be/`. */
  lemma {:induction false} YouTubeShape(s: string)
    ensures IsYouTubeUrl(s) <==>
      exists scheme, www, host ::
        YouTubeGroups(scheme, www, host) && HasPrefix(s, Alternative(scheme, www, host))
  {
    forall scheme, www, host |
      YouTubeGroups(scheme, www, host) && HasPrefix(s, Alternative(scheme, www, host))
      ensures IsYouTubeUrl(s)
    {
      YouTubeAlternativeAccepted(s, scheme, www, host);
    }
    if IsYouTubeUrl(s) {
      var scheme, www, host := YouTubeAcceptedAlternative(s);
    }
  }

  /** A string the YouTube test accepts begins with one alternative of
      the pattern: the scheme, `www.` and host name the test found. */
  lemma YouTubeAcceptedAlternative(s: string) returns (scheme: string, www: string, host: string)
    requires IsYouTubeUrl(s)
    ensures YouTubeGroups(scheme, www, host) && HasPrefix(s, Alternative(scheme, www, host))
  {
    scheme := if HasPrefix(s, "https://") then "https://" else if HasPrefix(s, "http://") then "http://" else "";
    assert HasPrefix(s, scheme);
    var a := s[|scheme|..];
    assert a == DropScheme(s);
    www := if HasPrefix(a, "www.") then "www." else "";
    assert HasPrefix(a, www);
    var b := a[|www|..];
    assert b == if HasPrefix(a, "www.") then a[4..] else a;
    host := if HasPrefix(b, "youtube.com/") then "youtube.com/" else "youtu.be/";
    assert HasPrefix(b, host);
    AlternativeOf(s, scheme, www, host);
  }

  /** Reading a string group by group: each part is a prefix of what the
      parts before it leave. */
  lemma AlternativeOf(s: string, scheme: string, www: string, host: string)
    requires HasPrefix(s, scheme) && HasPrefix(s[|scheme|..], www) && HasPrefix(s[|scheme|..][|www|..], host)
    ensures HasPrefix(s, Alternative(scheme, www, host))
    ensures s[|scheme + www|..] == s[|scheme|..][|www|..]
  {
    HasPrefixConcat(s, scheme, www);
    HasPrefixConcat(s, scheme + www, host);
  }

  /** One alternative of the YouTube pattern is accepted by the test. */
  lemma YouTubeAlternativeAccepted(s: string, scheme: string, www: string, host: string)
    requires YouTubeGroups(scheme, www, host) && HasPrefix(s, Alternative(scheme, www, host))
    ensures IsYouTubeUrl(s)
  {
    HasPrefixConcat(s, scheme + www, host);
    HasPrefixConcat(s, scheme, www);
    assert s[|scheme + www|..] == s[|scheme|..][|www|..];
    if scheme == "" {
      assert s[0] == (www + host)[0];
    }
    DropKnownScheme(s, scheme);
    StripKnownWww(s[|scheme|..], www, host);
  }

  /** The `(https?://)` group, written out. */
  const Schemes: seq<string> := ["http://", "https://"]

  /** A string begins with a scheme followed by `rest` exactly when it is
      an http(s) URL whose part after the scheme begins with `rest`. */
  lemma SchemeThen(s: string, scheme: string, rest: string)
    requires scheme in Schemes
    ensures HasPrefix(s, scheme + rest) <==> HasPrefix(s, scheme) && HasPrefix(DropScheme(s), rest)
  {
    HasPrefixConcat(s, scheme, rest);
    if HasPrefix(s, scheme) {
      DropKnownScheme(s, scheme);
    }
  }

  /** For a pattern `^https?://(r1|r2|...)`: a string whose part after
      the scheme begins with one of `rests` begins with a scheme followed
      by that alternative, and the other way round. */
  lemma {:induction false} SchemeShape(s: string, rests: seq<string>)
    ensures (IsHttpUrl(s) && exists r :: r in rests && HasPrefix(DropScheme(s), r)) <==>
      exists scheme, r :: scheme in Schemes && r in rests && HasPrefix(s, scheme + r)
  {
    forall scheme, r | scheme in Schemes && r in rests && HasPrefix(s, scheme + r)
      ensures IsHttpUrl(s) && HasPrefix(DropScheme(s), r)
    {
      SchemeThen(s, scheme, r);
    }
    if IsHttpUrl(s) && exists r :: r in rests && HasPrefix(DropScheme(s), r) {
      var r :| r in rests && HasPrefix(DropScheme(s), r);
      var scheme := if HasPrefix(s, "https://") then "https://" else "http://";
      SchemeThen(s, scheme, r);
      assert scheme in Schemes && r in rests && HasPrefix(s, scheme + r);
    }
  }

  /** The SoundCloud test accepts exactly the strings that begin with
      `http://` or `https://` followed by `soundcloud.com/` or `snd.sc/`. */
  lemma SoundCloudShape(s: string)
    ensures IsSoundCloudUrl(s) <==>
      exists scheme, host :: scheme in Schemes && host in ["soundcloud.com/", "snd.sc/"] && HasPrefix(s, scheme + host)
  {
    SchemeShape(s, ["soundcloud.com/", "snd.sc/"]);
  }

  /** The Spotify test accepts exactly the strings that begin with
      `http://` or `https://` followed by a track, album or playlist path
      on `open.spotify.com`. */
  lemma SpotifyShape(s: string)
    ensures IsSpotifyUrl(s) <==>
      exists scheme, path :: scheme in Schemes &&
        path in ["open.spotify.com/track/", "open.spotify.com/album/", "open.spotify.com/playlist/"] &&
        HasPrefix(s, scheme + path)
  {
    SchemeShape(s, ["open.spotify.com/track/", "open.spotify.com/album/", "open.spotify.com/playlist/"]);
  }

  /** `playUrl` asks a stream provider only for URLs of these three shapes. */
  predicate HasStreamProvider(s: string) {
    IsSoundCloudUrl(s) || IsSpotifyUrl(s) || IsYouTubeUrl(s)
  }

  /** A string whose part after the scheme begins with neither `w` nor
      `y` is not YouTube-shaped. */
  lemma NotYouTube(s: string)
    requires |DropScheme(s)| > 0 && DropScheme(s)[0] != 'w' && DropScheme(s)[0] != 'y'
    ensures !IsYouTubeUrl(s)
  {
    var a := DropScheme(s);
    DiffersAt(a, "www.", 0);
    DiffersAt(a, "youtube.com/", 0);
    DiffersAt(a, "youtu.be/", 0);
  }

  /** After the scheme a SoundCloud URL begins with `s`. */
  lemma SoundCloudInitial(s: string)
    requires IsSoundCloudUrl(s)
    ensures |DropScheme(s)| > 0 && DropScheme(s)[0] == 's'
  {
    if HasPrefix(DropScheme(s), "soundcloud.com/") {
      AgreesAt(DropScheme(s), "soundcloud.com/", 0);
    } else {
      AgreesAt(DropScheme(s), "snd.sc/", 0);
    }
  }

  /** After the scheme a Spotify URL begins with `o`. */
  lemma SpotifyInitial(s: string)
    requires IsSpotifyUrl(s)
    ensures |DropScheme(s)| > 0 && DropScheme(s)[0] == 'o'
  {
    var a := DropScheme(s);
    if HasPrefix(a, "open.spotify.com/track/") {
      AgreesAt(a, "open.spotify.com/track/", 0);
    } else if HasPrefix(a, "open.spotify.com/album/") {
      AgreesAt(a, "open.spotify.com/album/", 0);
    } else {
      AgreesAt(a, "open.spotify.com/playlist/", 0);
    }
  }

  /** The three shapes exclude one another, so `playUrl` offers a URL to
      at most one stream provider and the order of its tests, like that of
      `fetchMetadata`'s, decides nothing. After the scheme a SoundCloud URL
      begins with `s`, a Spotify URL with `o`, and a YouTube URL, after an
      optional `www.`, with `y`. */
  lemma ShapesDisjoint(s: string)
    ensures !(IsSoundCloudUrl(s) && IsSpotifyUrl(s))
    ensures !(IsSoundCloudUrl(s) && IsYouTubeUrl(s))
    ensures !(IsSpotifyUrl(s) && IsYouTubeUrl(s))
  {
    if IsSoundCloudUrl(s) {
      SoundCloudInitial(s);
      NotYouTube(s);
    }
    if IsSpotifyUrl(s) {
      SpotifyInitial(s);
      NotYouTube(s);
    }
  }

  /** The network collaborators, one answer per argument.
      `lookup`: the text-search providers (SoundCloud search, then play-dl),
        `undefined` when neither finds anything.
      `resolve`: the metadata provider chain for the URL's shape, `None`
        when every provider in it fails or throws.
      `rejects`: whether a search provider's promise rejects for the
        query, which `search` does not catch.
      `stream`: whether the stream providers tried for the URL yield a
        stream. */
  datatype Oracles = Oracles(
    lookup: string -> Url,
    rejects: string -> bool,
    resolve: Url -> Option<Details>,
    stream: string -> bool)

  /** `search`: input that already is an http(s) URL is returned unchanged;
      anything else goes to the search providers. */
  function Search(query: string, o: Oracles): (url: Url)
    ensures IsHttpUrl(query) ==> url == Some(query)
    ensures !IsHttpUrl(query) ==> url == o.lookup(query)
  {
    if IsHttpUrl(query) then Some(query) else o.lookup(query)
  }

  /** Whether `search` throws: only input that is not an http(s) URL
      reaches the search providers. */
  predicate SearchRejects(query: string, o: Oracles) {
    !IsHttpUrl(query) && o.rejects(query)
  }

  /** The YouTube pattern's scheme is optional and the `^https?://` test's
      is not: a scheme-less YouTube link such as `youtu.be/<id>` has a
      known shape, yet `search` hands it to the search providers as text. */
  lemma SchemelessYouTubeIsSearched(id: string, o: Oracles)
    ensures IsYouTubeUrl("youtu.be/" + id) && !IsHttpUrl("youtu.be/" + id)
    ensures Search("youtu.be/" + id, o) == o.lookup("youtu.be/" + id)
  {
    var s := "youtu.be/" + id;
    assert HasPrefix(s, Alternative("", "", "youtu.be/")) by {
      assert s[..|"youtu.be/"|] == "youtu.be/";
    }
    YouTubeAlternativeAccepted(s, "", "", "youtu.be/");
    DiffersAt(s, "http://", 0);
    DiffersAt(s, "https://", 0);
  }

  /** The `source` tag `fetchMetadata` attaches: the YouTube branch is tried
      first, then the SoundCloud one, and every other URL is `unknown`. */
  function SourceOf(url: Url): (src: Source)
    ensures src == YouTube <==> url.Some? && IsYouTubeUrl(url.value)
    ensures src == SoundCloud <==> url.Some? && !IsYouTubeUrl(url.value) && IsSoundCloudUrl(url.value)
    ensures src != Spotify && src != Deezer
  {
    match url
    case None => Unknown
    case Some(s) =>
      if IsYouTubeUrl(s) then YouTube
      else if IsSoundCloudUrl(s) then SoundCloud
      else Unknown
  }

  /** The record every failure path of `fetchMetadata` returns. */
  function Placeholder(url: Url): (m: TrackMetadata)
    ensures m.url == url && m.source == Unknown
    ensures m.title.None? && m.author.None? && m.duration.None? && m.thumbnail.None?
  {
    TrackMetadata(None, None, None, None, Unknown, url)
  }

  /** `fetchMetadata`: never fails, always keeps the URL it was given, and
      falls back to the placeholder when the providers fail. An `undefined`
      URL matches no branch, and the generic provider throws on it. */
  function FetchMetadata(url: Url, o: Oracles): (m: TrackMetadata)
    ensures m.url == url
    ensures url.None? || o.resolve(url).None? ==> m == Placeholder(url)
    ensures url.Some? && o.resolve(url).Some? ==>
      var d := o.resolve(url).value;
      m.title == d.title && m.author == d.author &&
      m.duration == d.duration && m.thumbnail == d.thumbnail &&
      m.source == SourceOf(url)
  {
    if url.None? then Placeholder(url)
    else match o.resolve(url)
      case None => Placeholder(url)
      case Some(d) => TrackMetadata(d.title, d.author, d.duration, d.thumbnail, SourceOf(url), url)
  }

  /** Whether `playUrl` ends up with a byte stream for `url`. Only URLs of a
      known shape are offered to a provider; for any other URL, and for
      `undefined`, the stream stays null. */
  function StreamOpens(url: Url, o: Oracles): (opens: bool)
    ensures opens ==> url.Some? && HasStreamProvider(url.value)
  {
    url.Some? && HasStreamProvider(url.value) && o.stream(url.value)
  }
}
