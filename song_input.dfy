/** The song card (`SongInput`): the recognisers for a YouTube link, a direct
    audio link and an audio file, and the handlers that store the accepted
    song on the page or clear it. The regular expressions are written out
    as predicates over characters, each next to a declarative definition of
    the strings it accepts and a proof that the two agree. */
module Song {
  import opened Platform
  import opened Text
  import opened VoiceCloneHook
  import IndexPage

  /** `[\w-]`: an ASCII letter, digit, underscore or hyphen. */
  predicate IsIdChar(c: char)
  {
    'A' <= c <= 'Z' || 'a' <= c <= 'z' || '0' <= c <= '9' || c == '_' || c == '-'
  }

  /** The optional `(https?:\/\/)?` group: absent, "http://" or "https://". */
  const Schemes: seq<string> := ["", "http://", "https://"]
  /** The optional `(www\.)?` group. */
  const Subdomains: seq<string> := ["", "www."]
  /** The three fixed parts of the YouTube patterns, in pattern order. */
  const YoutubePaths: seq<string> := ["youtube.com/watch?v=", "youtu.be/", "youtube.com/shorts/"]

  // ---- The YouTube recogniser, walked the way the patterns read ----

  /** t starts with p followed by an id character; the rest of `[\w-]+` and
      whatever follows it do not matter, as the patterns have no end anchor. */
  predicate IdFollows(t: string, p: string)
  {
    p <= t && |t| > |p| && IsIdChar(t[|p|])
  }

  /** `(www\.)?` then p then `[\w-]+`. */
  predicate WithSubdomain(t: string, p: string)
  {
    IdFollows(t, p) || ("www." <= t && IdFollows(t[4..], p))
  }

  /** One pattern: `^(https?:\/\/)?(www\.)?` p `[\w-]+`. */
  predicate MatchesPattern(s: string, p: string)
  {
    WithSubdomain(s, p) ||
    ("http://" <= s && WithSubdomain(s[7..], p)) ||
    ("https://" <= s && WithSubdomain(s[8..], p))
  }

  /** `isValidYoutubeUrl`: some of the three patterns matches. It accepts
      exactly the strings the three patterns describe (see YoutubeSpec). */
  predicate IsValidYoutubeUrl(s: string)
    ensures IsValidYoutubeUrl(s) <==> YoutubeSpec(s)
  {
    PatternsIff(s);
    exists c | 0 <= c < |YoutubePaths| :: MatchesPattern(s, YoutubePaths[c])
  }

  // ---- What the YouTube patterns accept, stated declaratively ----

  /** A non-empty run of id characters. */
  predicate IdRun(id: string)
  {
    |id| >= 1 && forall i :: 0 <= i < |id| ==> IsIdChar(id[i])
  }

  /** t begins with the subdomain choice b, then p, then the id run. */
  ghost predicate SubMatch(t: string, p: string, b: int, id: string)
  {
    0 <= b < |Subdomains| && IdRun(id) && Subdomains[b] + p + id <= t
  }

  /** s begins with scheme a, subdomain b, then p, then the id run. */
  ghost predicate FullMatch(s: string, p: string, a: int, b: int, id: string)
  {
    0 <= a < |Schemes| && 0 <= b < |Subdomains| && IdRun(id) && Schemes[a] + Subdomains[b] + p + id <= s
  }

  /** s begins with one of the 3 x 2 x 3 fixed heads followed by an id run. */
  ghost predicate YoutubeSpec(s: string)
  {
    exists a, b, c, id :: 0 <= c < |YoutubePaths| && FullMatch(s, YoutubePaths[c], a, b, id)
  }

  lemma PrefixSplit(q: string, r: string, s: string)
    ensures q + r <= s <==> q <= s && r <= s[|q|..]
  {
    if q + r <= s {
      assert q == (q + r)[..|q|];
      assert r == (q + r)[|q|..];
    }
    if q <= s && r <= s[|q|..] {
      assert s[..|q| + |r|] == s[..|q|] + s[|q|..][..|r|];
    }
  }

  lemma IdFollowsIff(t: string, p: string)
    ensures IdFollows(t, p) <==> exists id :: IdRun(id) && p + id <= t
  {
    if IdFollows(t, p) {
      var id := [t[|p|]];
      assert t[..|p| + 1] == t[..|p|] + id;
      assert IdRun(id) && p + id <= t;
    }
    if exists id :: IdRun(id) && p + id <= t {
      var id :| IdRun(id) && p + id <= t;
      PrefixSplit(p, id, t);
      assert t[|p|..][0] == id[0];
    }
  }

  lemma AppendAssoc3<T>(a: seq<T>, b: seq<T>, c: seq<T>)
    ensures a + b + c == a + (b + c)
  {
  }

  /** A subdomain match, read off the rest of the string. */
  lemma SubdomainSplit(t: string, p: string, b: int, id: string)
    requires 0 <= b < |Subdomains|
    ensures SubMatch(t, p, b, id) <==>
      Subdomains[b] <= t && IdRun(id) && p + id <= t[|Subdomains[b]|..]
  {
    var w := Subdomains[b];
    AppendAssoc3(w, p, id);
    PrefixSplit(w, p + id, t);
  }

  lemma WithSubdomainIff(t: string, p: string)
    ensures WithSubdomain(t, p) <==> exists b, id :: SubMatch(t, p, b, id)
  {
    IdFollowsIff(t, p);
    if |t| >= 4 {
      IdFollowsIff(t[4..], p);
    }
    assert t[|Subdomains[0]|..] == t;
    if IdFollows(t, p) {
      var id :| IdRun(id) && p + id <= t;
      SubdomainSplit(t, p, 0, id);
    } else if "www." <= t && IdFollows(t[4..], p) {
      var id :| IdRun(id) && p + id <= t[4..];
      SubdomainSplit(t, p, 1, id);
    }
    if exists b, id :: SubMatch(t, p, b, id) {
      var b, id :| SubMatch(t, p, b, id);
      SubdomainSplit(t, p, b, id);
    }
  }

  lemma AppendAssoc<T>(a: seq<T>, b: seq<T>, c: seq<T>, d: seq<T>)
    ensures a + b + c + d == a + (b + c + d)
  {
  }

  /** A match that begins with scheme a, read off the rest of the string. */
  lemma SchemeSplit(s: string, p: string, a: int, b: int, id: string)
    requires 0 <= a < |Schemes|
    ensures FullMatch(s, p, a, b, id) <==>
      Schemes[a] <= s && SubMatch(s[|Schemes[a]|..], p, b, id)
  {
    var q := Schemes[a];
    if 0 <= b < |Subdomains| {
      var w := Subdomains[b];
      AppendAssoc(q, w, p, id);
      PrefixSplit(q, w + p + id, s);
    }
  }

  /** One scheme choice: a full match with scheme q is the subdomain walk on
      what follows q. */
  lemma SchemeStep(s: string, p: string, a: int)
    requires 0 <= a < |Schemes|
    ensures (Schemes[a] <= s && WithSubdomain(s[|Schemes[a]|..], p)) <==>
      exists b, id :: FullMatch(s, p, a, b, id)
  {
    var q := Schemes[a];
    if q <= s {
      WithSubdomainIff(s[|q|..], p);
      if WithSubdomain(s[|q|..], p) {
        var b, id :| SubMatch(s[|q|..], p, b, id);
        SchemeSplit(s, p, a, b, id);
      }
    }
    if exists b, id :: FullMatch(s, p, a, b, id) {
      var b, id :| FullMatch(s, p, a, b, id);
      SchemeSplit(s, p, a, b, id);
      WithSubdomainIff(s[|q|..], p);
    }
  }

  lemma MatchesPatternIff(s: string, p: string)
    ensures MatchesPattern(s, p) <==> exists a, b, id :: FullMatch(s, p, a, b, id)
  {
    SchemeStep(s, p, 0);
    SchemeStep(s, p, 1);
    SchemeStep(s, p, 2);
    assert s[|Schemes[0]|..] == s;
    if exists a, b, id :: FullMatch(s, p, a, b, id) {
      var a, b, id :| FullMatch(s, p, a, b, id);
      assert exists b', id' :: FullMatch(s, p, a, b', id');
    }
  }

  /** Some pattern matches exactly when the string is one of the 3 x 2 x 3
      heads followed by an id run. */
  lemma PatternsIff(s: string)
    ensures (exists c | 0 <= c < |YoutubePaths| :: MatchesPattern(s, YoutubePaths[c])) <==> YoutubeSpec(s)
  {
    if exists c | 0 <= c < |YoutubePaths| :: MatchesPattern(s, YoutubePaths[c]) {
      var c :| 0 <= c < |YoutubePaths| && MatchesPattern(s, YoutubePaths[c]);
      MatchesPatternIff(s, YoutubePaths[c]);
      var a, b, id :| FullMatch(s, YoutubePaths[c], a, b, id);
      assert YoutubeSpec(s);
    }
    if YoutubeSpec(s) {
      var a, b, c, id :| 0 <= c < |YoutubePaths| && FullMatch(s, YoutubePaths[c], a, b, id);
      MatchesPatternIff(s, YoutubePaths[c]);
    }
  }

  // ---- The direct audio link ----

  /** The alternatives of `(mp3|wav|ogg|m4a|flac)`. */
  const AudioExtensions: seq<string> := ["mp3", "wav", "ogg", "m4a", "flac"]
  /** `https?:\/\/`. */
  const WebSchemes: seq<string> := ["http://", "https://"]

  /** The characters `.` does not match without the `s` flag. */
  predicate IsLineTerminator(c: char)
  {
    c == '\n' || c == '\r' || c as int == 0x2028 || c as int == 0x2029
  }

  predicate NoLineTerminator(s: string)
  {
    forall i :: 0 <= i < |s| ==> !IsLineTerminator(s[i])
  }

  predicate EndsWith(s: string, x: string)
  {
    |x| <= |s| && s[|s| - |x|..] == x
  }

  /** `^` q `.+\.` ext `$` on an already folded string t: t starts with q,
      ends with "." + ext, and between them lies at least one character,
      none a line terminator. */
  predicate DirectMatch(t: string, q: string, ext: string)
  {
    var tail := "." + ext;
    q <= t && |t| >= |q| + 1 + |tail| && EndsWith(t, tail) &&
    NoLineTerminator(t[|q|..|t| - |tail|])
  }

  /** The case-insensitive direct audio pattern. The `/i` flag folds only
      ASCII letters onto the pattern's lower-case literals; every other
      character of the pattern folds to itself, and no non-ASCII character
      folds onto an ASCII one, so matching the folded input is the same.
      It accepts exactly the strings that, folded, split as scheme, middle,
      dot and extension. */
  predicate IsDirectAudioUrl(s: string)
    ensures IsDirectAudioUrl(s) <==> exists j, k, mid :: AudioSplit(Fold(s), j, k, mid)
  {
    DirectPatternsIff(s);
    var t := Fold(s);
    exists j, k | 0 <= j < |WebSchemes| && 0 <= k < |AudioExtensions| ::
      DirectMatch(t, WebSchemes[j], AudioExtensions[k])
  }

  /** `isValidAudioUrl`: a direct audio link or a YouTube link. An
      accepted link is never blank. */
  predicate IsValidAudioUrl(s: string)
    ensures IsValidAudioUrl(s) <==> (exists j, k, mid :: AudioSplit(Fold(s), j, k, mid)) || YoutubeSpec(s)
    ensures IsValidAudioUrl(s) ==> !IsBlank(s) && Trim(s) != []
  {
    ValidUrlNotBlank(s);
    IsDirectAudioUrl(s) || IsValidYoutubeUrl(s)
  }

  /** The folded string splits as scheme, a non-empty middle free of line
      terminators, a dot and an extension. */
  ghost predicate AudioSplit(t: string, j: int, k: int, mid: string)
  {
    0 <= j < |WebSchemes| && 0 <= k < |AudioExtensions| &&
    |mid| >= 1 && NoLineTerminator(mid) &&
    t == WebSchemes[j] + mid + "." + AudioExtensions[k]
  }

  /** t is q, then mid, then tail, exactly when it starts with q, ends with
      tail, and mid is what lies between. */
  lemma ThreeSplit(q: string, mid: string, tail: string, t: string)
    ensures t == q + mid + tail <==>
      q <= t && |t| >= |q| + |tail| && EndsWith(t, tail) && mid == t[|q|..|t| - |tail|]
  {
    if q <= t && |t| >= |q| + |tail| && EndsWith(t, tail) && mid == t[|q|..|t| - |tail|] {
      assert t == t[..|q|] + t[|q|..|t| - |tail|] + t[|t| - |tail|..];
    }
  }

  lemma DirectMatchIff(t: string, j: int, k: int)
    requires 0 <= j < |WebSchemes| && 0 <= k < |AudioExtensions|
    ensures DirectMatch(t, WebSchemes[j], AudioExtensions[k]) <==> exists mid :: AudioSplit(t, j, k, mid)
  {
    var q := WebSchemes[j];
    var ext := AudioExtensions[k];
    var tail := "." + ext;
    if DirectMatch(t, q, ext) {
      var mid := t[|q|..|t| - |tail|];
      ThreeSplit(q, mid, tail, t);
      AppendAssoc3(q + mid, ".", ext);
      assert AudioSplit(t, j, k, mid);
    }
    if exists mid :: AudioSplit(t, j, k, mid) {
      var mid :| AudioSplit(t, j, k, mid);
      AppendAssoc3(q + mid, ".", ext);
      ThreeSplit(q, mid, tail, t);
    }
  }

  /** Some scheme and extension match the folded string exactly when it
      splits as scheme, middle, dot and extension. */
  lemma DirectPatternsIff(s: string)
    ensures (var t := Fold(s);
      exists j, k | 0 <= j < |WebSchemes| && 0 <= k < |AudioExtensions| ::
        DirectMatch(t, WebSchemes[j], AudioExtensions[k])) <==>
      exists j, k, mid :: AudioSplit(Fold(s), j, k, mid)
  {
    var t := Fold(s);
    if exists j, k | 0 <= j < |WebSchemes| && 0 <= k < |AudioExtensions| ::
        DirectMatch(t, WebSchemes[j], AudioExtensions[k]) {
      var j, k :| 0 <= j < |WebSchemes| && 0 <= k < |AudioExtensions| &&
        DirectMatch(t, WebSchemes[j], AudioExtensions[k]);
      DirectMatchIff(t, j, k);
    }
    if exists j, k, mid :: AudioSplit(t, j, k, mid) {
      var j, k, mid :| AudioSplit(t, j, k, mid);
      DirectMatchIff(t, j, k);
    }
  }

  /** Every YouTube link passes as an audio link. */
  lemma YoutubeIsAudio(s: string)
    requires IsValidYoutubeUrl(s)
    ensures IsValidAudioUrl(s)
  {
  }

  /** A direct or YouTube link starts with a letter, so it is never blank:
      the blank check in the submit handler only chooses the message. */
  lemma ValidUrlNotBlank(s: string)
    ensures IsDirectAudioUrl(s) || IsValidYoutubeUrl(s) ==> !IsBlank(s) && Trim(s) != []
  {
    if IsDirectAudioUrl(s) || IsValidYoutubeUrl(s) {
      if IsDirectAudioUrl(s) {
        DirectFirst(s);
      } else {
        YoutubeStart(s);
      }
      assert !IsJsSpace(s[0]);
      TrimEmptyIffBlank(s);
    }
  }

  /** A direct audio link begins with 'h' or 'H'. */
  lemma DirectFirst(s: string)
    requires IsDirectAudioUrl(s)
    ensures |s| > 0 && (s[0] == 'h' || s[0] == 'H')
  {
    var t := Fold(s);
    var j, k :| 0 <= j < |WebSchemes| && 0 <= k < |AudioExtensions| &&
      DirectMatch(t, WebSchemes[j], AudioExtensions[k]);
    PrefixFirst(WebSchemes[j], t);
    assert FoldChar(s[0]) == 'h';
  }

  /** A YouTube link begins with 'h', 'w' or 'y'. */
  lemma YoutubeStart(s: string)
    requires IsValidYoutubeUrl(s)
    ensures |s| > 0 && (s[0] == 'h' || s[0] == 'w' || s[0] == 'y')
  {
    var a, b, c, id :| 0 <= c < |YoutubePaths| && FullMatch(s, YoutubePaths[c], a, b, id);
    YoutubeFirst(s, a, b, c, id);
  }

  lemma PrefixFirst(q: string, s: string)
    requires q <= s && |q| > 0
    ensures |s| > 0 && s[0] == q[0]
  {
  }

  /** A YouTube match begins with 'h', 'w' or 'y'. */
  lemma YoutubeFirst(s: string, a: int, b: int, c: int, id: string)
    requires 0 <= c < |YoutubePaths| && FullMatch(s, YoutubePaths[c], a, b, id)
    ensures |s| > 0 && (s[0] == 'h' || s[0] == 'w' || s[0] == 'y')
  {
    var q, w, p := Schemes[a], Subdomains[b], YoutubePaths[c];
    assert q == [] || q[0] == 'h';
    assert w == [] || w[0] == 'w';
    assert |p| > 0 && p[0] == 'y';
    HeadOfFour(q, w, p, id, s);
  }

  /** The first character of q + w + p + id, p not empty, is that of the
      first non-empty part among q, w and p. */
  lemma HeadOfFour(q: string, w: string, p: string, id: string, s: string)
    requires |p| > 0 && q + w + p + id <= s
    ensures |s| > 0
    ensures s[0] == if |q| > 0 then q[0] else if |w| > 0 then w[0] else p[0]
  {
    var head := q + w + p + id;
    PrefixFirst(head, s);
    AppendAssoc(q, w, p, id);
    if |q| == 0 {
      assert head == w + (p + id);
    }
  }

  // ---- The song file ----

  /** The MIME types the upload accepts outright. */
  const AudioTypes: seq<string> := ["audio/mpeg", "audio/wav", "audio/ogg", "audio/mp4", "audio/flac", "audio/x-m4a"]

  /** `name.match(/\.(mp3|wav|ogg|m4a|flac)$/i)`. A name has an audio
      extension exactly when, folded, it is some stem followed by a dot and
      one of the five extensions. */
  predicate HasAudioExtension(name: string)
    ensures HasAudioExtension(name) <==>
      exists k, stem :: 0 <= k < |AudioExtensions| && Fold(name) == stem + "." + AudioExtensions[k]
  {
    ExtensionIff(name);
    exists k | 0 <= k < |AudioExtensions| :: EndsWith(Fold(name), "." + AudioExtensions[k])
  }

  /** The upload check: a listed MIME type or an audio file name, that is,
      a name that folds to a stem, a dot and an audio extension. */
  predicate IsAcceptedSongFile(f: File)
    ensures IsAcceptedSongFile(f) <==>
      (f.mimeType in AudioTypes ||
       exists k, stem :: 0 <= k < |AudioExtensions| && Fold(f.name) == stem + "." + AudioExtensions[k])
  {
    f.mimeType in AudioTypes || HasAudioExtension(f.name)
  }

  /** The folded name ends with a dot and an extension exactly when it is a
      stem followed by them. */
  lemma ExtensionIff(name: string)
    ensures (exists k | 0 <= k < |AudioExtensions| :: EndsWith(Fold(name), "." + AudioExtensions[k])) <==>
      exists k, stem :: 0 <= k < |AudioExtensions| && Fold(name) == stem + "." + AudioExtensions[k]
  {
    var t := Fold(name);
    if exists k | 0 <= k < |AudioExtensions| :: EndsWith(t, "." + AudioExtensions[k]) {
      var k :| 0 <= k < |AudioExtensions| && EndsWith(t, "." + AudioExtensions[k]);
      var tail := "." + AudioExtensions[k];
      var stem := t[..|t| - |tail|];
      ThreeSplit(stem, [], tail, t);
      AppendAssoc3(stem, ".", AudioExtensions[k]);
      assert stem + [] == stem;
    }
    if exists k, stem :: 0 <= k < |AudioExtensions| && t == stem + "." + AudioExtensions[k] {
      var k, stem :| 0 <= k < |AudioExtensions| && t == stem + "." + AudioExtensions[k];
      AppendAssoc3(stem, ".", AudioExtensions[k]);
      assert stem + [] == stem;
      ThreeSplit(stem, [], "." + AudioExtensions[k], t);
    }
  }

  // ---- The handlers ----

  /** The three ways `handleUrlSubmit` ends. */
  datatype UrlVerdict = NoUrl | InvalidUrl | UrlAccepted

  /** The two checks of `handleUrlSubmit`, in order. A link is refused as
      missing exactly when it is blank, and accepted exactly when it is a
      valid audio link. */
  function CheckUrl(url: string): (v: UrlVerdict)
    ensures v == NoUrl <==> IsBlank(url)
    ensures v == UrlAccepted <==> IsValidAudioUrl(url)
  {
    TrimEmptyIffBlank(url);
    if Trim(url) == [] then NoUrl
    else if !IsValidAudioUrl(url) then InvalidUrl
    else UrlAccepted
  }


  /** The three ways `handleFileUpload` ends. */
  datatype FileVerdict = NoSongFile | WrongType | FileAccepted

  class SongInput {
    var url: string
    const page: IndexPage.Index

    constructor (page: IndexPage.Index)
      ensures url == "" && this.page == page
    {
      url := "";
      this.page := page;
    }

    /** The text field's `onChange`. */
    method SetUrl(u: string)
      modifies this`url
      ensures url == u
    {
      url := u;
    }

    /** `handleUrlSubmit`: refuse a blank or invalid link; otherwise store
        the link as typed, untrimmed. */
    method HandleUrlSubmit() returns (v: UrlVerdict)
      modifies page`songData
      ensures v == CheckUrl(url)
      ensures v == UrlAccepted ==> page.songData == Some(UrlSong(url))
      ensures v != UrlAccepted ==> page.songData == old(page.songData)
    {
      if Trim(url) == [] {
        return NoUrl;
      }
      if !IsValidAudioUrl(url) {
        return InvalidUrl;
      }
      page.songData := Some(UrlSong(url));
      v := UrlAccepted;
    }

    /** `handleFileUpload`: no file does nothing; a file with neither a
        listed type nor an audio name is refused; otherwise it is stored. */
    method HandleFileUpload(file: Option<File>) returns (v: FileVerdict)
      modifies page`songData
      ensures v == (if file.None? then NoSongFile
        else if !IsAcceptedSongFile(file.value) then WrongType
        else FileAccepted)
      ensures v == FileAccepted ==> page.songData == Some(FileSong(file.value))
      ensures v != FileAccepted ==> page.songData == old(page.songData)
    {
      if file.None? {
        return NoSongFile;
      }
      var f := file.value;
      if !(f.mimeType in AudioTypes) && !HasAudioExtension(f.name) {
        return WrongType;
      }
      page.songData := Some(FileSong(f));
      v := FileAccepted;
    }

    /** `clearSong`. */
    method ClearSong()
      modifies this`url, page`songData
      ensures url == "" && page.songData == None
    {
      page.songData := None;
      url := "";
    }
  }
}
