/** The object-store side of the video job: the key an upload is staged
    under, the two output keys minted from one timestamp, the presigned URLs
    handed to the worker, and how the key of the generated script is read
    back out of the URL the worker reports.

    Presigning itself (signatures, credentials, the bucket's host name) is
    the storage library's business; a presigned URL is modelled as the
    record of what it grants: an operation on one key, an optional pinned
    content type and a lifetime. */
module Storage {
  import opened Wrappers
  import opened Text

  // ---------------------------------------------------------------------
  // Staging the input
  // ---------------------------------------------------------------------

  const InputPrefix: string := "inputs/"

  /** `os.path.basename`: the part after the last `/`. */
  function Basename(path: string): (name: string)
    ensures '/' !in name
    ensures |name| <= |path| && name == path[|path| - |name|..]
    ensures |name| < |path| ==> path[|path| - |name| - 1] == '/'
  {
    if path == [] then []
    else if path[|path| - 1] == '/' then []
    else Basename(path[..|path| - 1]) + [path[|path| - 1]]
  }

  /** The basename of `dir/file` is `file`, whatever the directory. */
  lemma {:induction false} BasenameOfJoined(dir: string, file: string)
    requires '/' !in file
    ensures Basename(dir + "/" + file) == file
    decreases |file|
  {
    var p := dir + "/" + file;
    if file == [] {
      assert p[|p| - 1] == '/';
    } else {
      var f' := file[..|file| - 1];
      assert p[..|p| - 1] == dir + "/" + f';
      assert forall k :: 0 <= k < |f'| ==> f'[k] == file[k];
      BasenameOfJoined(dir, f');
      assert file == f' + [file[|file| - 1]];
    }
  }

  /** The name used when the upload's file name cannot be read:
      `video_<unix seconds>.mp4`. */
  function FallbackName(now: nat): string {
    "video_" + NatToString(now) + ".mp4"
  }

  /** The key `upload_video_to_s3` stages the upload under: `inputs/` and
      the file's basename, or the fallback name when the name is missing
      (`os.path.basename` raising on it). The key always names an object
      directly under `inputs/`. */
  function InputKey(name: Option<string>, now: nat): (key: string)
    ensures |key| >= |InputPrefix| && key[..|InputPrefix|] == InputPrefix
    ensures '/' !in key[|InputPrefix|..]
    ensures name.Some? ==> key[|InputPrefix|..] == Basename(name.value)
    ensures name.None? ==> key[|InputPrefix|..] == FallbackName(now)
  {
    var file := match name
      case Some(n) => Basename(n)
      case None => FallbackName(now);
    assert '/' !in FallbackName(now) by {
      var d := NatToString(now);
      var f := FallbackName(now);
      forall k | 0 <= k < |f| ensures f[k] != '/' {
        if 6 <= k < 6 + |d| {
          assert f[k] == d[k - 6];
        }
      }
    }
    InputPrefix + file
  }

  /** An upload stored at `dir/file` is staged as `inputs/file`. */
  lemma InputKeyOfStoredFile(dir: string, file: string, now: nat)
    requires '/' !in file
    ensures InputKey(Some(dir + "/" + file), now) == InputPrefix + file
  {
    BasenameOfJoined(dir, file);
    var key := InputKey(Some(dir + "/" + file), now);
    assert key == key[..|InputPrefix|] + key[|InputPrefix|..];
  }

  // ---------------------------------------------------------------------
  // Output keys: one timestamp for both
  // ---------------------------------------------------------------------

  const ResultPrefix: string := "outputs/result_"
  const ResultSuffix: string := ".mp4"
  const ScriptPrefix: string := "outputs/script_"
  const ScriptSuffix: string := ".json"

  function Stamped(prefix: string, ts: nat, suffix: string): string {
    prefix + NatToString(ts) + suffix
  }

  /** The result video's key for timestamp `ts`. */
  function ResultKey(ts: nat): string {
    Stamped(ResultPrefix, ts, ResultSuffix)
  }

  /** The generated script's key for timestamp `ts`. */
  function ScriptKey(ts: nat): string {
    Stamped(ScriptPrefix, ts, ScriptSuffix)
  }

  /** Reads the timestamp back out of a key of the form
      `prefix<digits>suffix`, or None for any other key. */
  function StampOf(prefix: string, suffix: string, key: string): (ts: Option<nat>)
    ensures ts.Some? <==>
              |key| > |prefix| + |suffix| && key[..|prefix|] == prefix && key[|key| - |suffix|..] == suffix
              && AllDigits(key[|prefix|..|key| - |suffix|])
    ensures ts.Some? ==> key == prefix + key[|prefix|..|key| - |suffix|] + suffix
  {
    if |key| > |prefix| + |suffix| && key[..|prefix|] == prefix
       && key[|key| - |suffix|..] == suffix && AllDigits(key[|prefix|..|key| - |suffix|])
    then Some(ParseDigits(key[|prefix|..|key| - |suffix|]))
    else None
  }

  /** Stamping then reading back gives the timestamp. */
  lemma StampRoundTrip(prefix: string, ts: nat, suffix: string)
    ensures StampOf(prefix, suffix, Stamped(prefix, ts, suffix)) == Some(ts)
  {
    var d := NatToString(ts);
    var key := Stamped(prefix, ts, suffix);
    assert key[..|prefix|] == prefix;
    assert key[|key| - |suffix|..] == suffix;
    assert key[|prefix|..|key| - |suffix|] == d;
    ParseNatToString(ts);
  }

  /** A result key and a script key are never the same object, whatever
      their timestamps. */
  lemma ResultAndScriptKeysDiffer(a: nat, b: nat)
    ensures ResultKey(a) != ScriptKey(b)
  {
    assert ResultKey(a)[8] == 'r' && ScriptKey(b)[8] == 's';
  }

  // ---------------------------------------------------------------------
  // Presigned URLs
  // ---------------------------------------------------------------------

  datatype Operation = GetObject | PutObject

  /** What a presigned URL grants: one operation on one key, with the
      content type pinned for uploads, for `expiresIn` seconds. */
  datatype PresignedUrl = PresignedUrl(op: Operation, key: string, contentType: Option<string>, expiresIn: nat)

  /** The dictionary `generate_public_urls` returns. */
  datatype AccessUrls = AccessUrls(download: PresignedUrl, upload: PresignedUrl, scriptUpload: PresignedUrl, outputKey: string)

  const UrlLifetime: nat := 3600
  const VideoType: string := "video/mp4"
  const JsonType: string := "application/json"

  /** `generate_public_urls`: a read URL for the staged input and two write
      URLs for output keys that share the single timestamp `ts` taken by
      the call; the returned `output_key` is the result video's key. */
  function MintAccessUrls(inputKey: string, ts: nat): (u: AccessUrls)
    ensures u.download.op == GetObject && u.download.key == inputKey && u.download.contentType == None
    ensures u.upload.op == PutObject && u.upload.contentType == Some(VideoType)
    ensures u.scriptUpload.op == PutObject && u.scriptUpload.contentType == Some(JsonType)
    ensures u.download.expiresIn == u.upload.expiresIn == u.scriptUpload.expiresIn == UrlLifetime
    ensures u.outputKey == u.upload.key
    ensures StampOf(ResultPrefix, ResultSuffix, u.upload.key) == Some(ts)
    ensures StampOf(ScriptPrefix, ScriptSuffix, u.scriptUpload.key) == Some(ts)
    ensures u.upload.key != u.scriptUpload.key
  {
    StampRoundTrip(ResultPrefix, ts, ResultSuffix);
    StampRoundTrip(ScriptPrefix, ts, ScriptSuffix);
    ResultAndScriptKeysDiffer(ts, ts);
    AccessUrls(
      PresignedUrl(GetObject, inputKey, None, UrlLifetime),
      PresignedUrl(PutObject, ResultKey(ts), Some(VideoType), UrlLifetime),
      PresignedUrl(PutObject, ScriptKey(ts), Some(JsonType), UrlLifetime),
      ResultKey(ts))
  }

  // ---------------------------------------------------------------------
  // Reading the script key back from a URL
  // ---------------------------------------------------------------------

  /** Index of the first character of `s` that is in `cs`, or `|s|`. */
  function IndexOfAny(s: string, cs: set<char>): (i: nat)
    ensures i <= |s|
    ensures forall k :: 0 <= k < i ==> s[k] !in cs
    ensures i < |s| ==> s[i] in cs
  {
    if s == [] then 0
    else if s[0] in cs then 0
    else 1 + IndexOfAny(s[1..], cs)
  }

  lemma {:induction false} IndexOfAnyAppend(a: string, b: string, cs: set<char>)
    requires forall k :: 0 <= k < |a| ==> a[k] !in cs
    ensures IndexOfAny(a + b, cs) == |a| + IndexOfAny(b, cs)
    decreases |a|
  {
    if a != [] {
      assert (a + b)[1..] == a[1..] + b;
      IndexOfAnyAppend(a[1..], b, cs);
    } else {
      assert a + b == b;
    }
  }

  lemma IndexOfAnyAbsent(s: string, cs: set<char>)
    requires forall k :: 0 <= k < |s| ==> s[k] !in cs
    ensures IndexOfAny(s, cs) == |s|
  {
  }

  predicate IsAsciiLetter(c: char) {
    'a' <= c <= 'z' || 'A' <= c <= 'Z'
  }

  /** The characters Python's `urllib.parse` allows in a scheme. */
  predicate IsSchemeChar(c: char) {
    IsAsciiLetter(c) || IsDigit(c) || c == '+' || c == '-' || c == '.'
  }

  /** Schemes for which `urlparse` splits `;params` off the path. */
  const UsesParams: set<string> := {"", "ftp", "hdl", "prospero", "http", "imap", "https",
    "shttp", "rtsp", "rtspu", "sip", "sips", "mms", "sftp", "tel"}

  /** The scheme (lower-cased) and what follows its colon; no scheme when
      the text before the first colon is empty, does not start with a
      letter or holds a character a scheme cannot. */
  function SplitScheme(url: string): (string, string) {
    var i := IndexOfAny(url, {':'});
    if 0 < i < |url| && IsAsciiLetter(url[0]) && forall k :: 0 <= k < i ==> IsSchemeChar(url[k])
    then (Lower(url[..i]), url[i + 1..])
    else ("", url)
  }

  /** The path with `;params` removed: from the first `;` at or after the
      last `/`. */
  function DropParams(path: string): string {
    var j := LastSlash(path);
    var k := IndexOfAny(path[j..], {';'});
    path[..j + k]
  }

  /** Index of the last `/` in `s`, or 0 when there is none. */
  function LastSlash(s: string): (j: nat)
    ensures j <= |s|
    ensures forall k :: j < k < |s| ==> s[k] != '/'
    ensures j > 0 ==> j < |s| && s[j] == '/'
  {
    if s == [] then 0
    else if s[|s| - 1] == '/' then |s| - 1
    else LastSlash(s[..|s| - 1])
  }

  /** What follows a `//netloc` part: the netloc runs to the first `/`,
      `?` or `#`. Text not starting with `//` has no netloc. */
  function AfterNetloc(rest: string): string {
    if |rest| >= 2 && rest[..2] == "//"
    then rest[2 + IndexOfAny(rest[2..], {'/', '?', '#'})..]
    else rest
  }

  /** Cuts at the first `#`, then at the first `?`. */
  function DropQueryAndFragment(s: string): string {
    var noFragment := s[..IndexOfAny(s, {'#'})];
    noFragment[..IndexOfAny(noFragment, {'?'})]
  }

  /** The characters `urlsplit` strips from the front of a URL: the C0
      controls and the space. */
  predicate IsC0OrSpace(c: char) {
    c <= ' '
  }

  /** `url.lstrip(_WHATWG_C0_CONTROL_OR_SPACE)`. */
  function LStripC0(s: string): (r: string)
    ensures r == [] || !IsC0OrSpace(r[0])
    ensures |r| <= |s| && r == s[|s| - |r|..]
    ensures forall k :: 0 <= k < |s| - |r| ==> IsC0OrSpace(s[k])
  {
    if s != [] && IsC0OrSpace(s[0]) then LStripC0(s[1..]) else s
  }

  /** Leading blanks and controls in front of a URL are stripped away. */
  lemma {:induction false} LStripC0Padded(pad: string, s: string)
    requires forall k :: 0 <= k < |pad| ==> IsC0OrSpace(pad[k])
    ensures LStripC0(pad + s) == LStripC0(s)
  {
    if pad != [] {
      assert (pad + s)[1..] == pad[1..] + s;
      LStripC0Padded(pad[1..], s);
    } else {
      assert pad + s == s;
    }
  }

  /** The tab, carriage return and line feed `urlsplit` deletes wherever
      they occur. */
  predicate IsUnsafe(c: char) {
    c == '\t' || c == '\r' || c == '\n'
  }

  predicate NoUnsafe(s: string) {
    forall k :: 0 <= k < |s| ==> !IsUnsafe(s[k])
  }

  /** The URL with every tab, carriage return and line feed removed, the
      other characters kept in order. */
  function RemoveUnsafe(s: string): (r: string)
    ensures NoUnsafe(r)
    ensures NoUnsafe(s) ==> r == s
  {
    if s == [] then []
    else (if IsUnsafe(s[0]) then [] else [s[0]]) + RemoveUnsafe(s[1..])
  }

  /** The text `urlsplit` goes on to split, after its clean-up. */
  function Cleaned(url: string): string {
    RemoveUnsafe(LStripC0(url))
  }

  /** The netloc of what follows the scheme: after `//`, up to the first
      `/`, `?` or `#`; empty when there is no `//`. */
  function Netloc(rest: string): string {
    if |rest| >= 2 && rest[..2] == "//"
    then rest[2..2 + IndexOfAny(rest[2..], {'/', '?', '#'})]
    else []
  }

  /** `urlsplit` returns instead of raising `ValueError("Invalid IPv6
      URL")`: the netloc holds both of `[` and `]` or neither. */
  predicate UrlSplits(url: string) {
    var netloc := Netloc(SplitScheme(Cleaned(url)).1);
    ('[' in netloc) == (']' in netloc)
  }

  /** `urlparse(url).path`: after the clean-up, what follows the scheme and
      the netloc, cut at the fragment and the query, and for the schemes in
      `UsesParams` at a `;` in its last segment. */
  function UrlPath(url: string): string {
    var (scheme, rest) := SplitScheme(Cleaned(url));
    var path := DropQueryAndFragment(AfterNetloc(rest));
    if scheme in UsesParams && ';' in path then DropParams(path) else path
  }

  /** `urlparse(script_url).path.lstrip('/')`: the storage key of the
      script the worker reports. */
  function ScriptKeyOf(url: string): (key: string)
    ensures key == [] || key[0] != '/'
  {
    LStripChar(UrlPath(url), '/')
  }

  /** The text of a virtual-hosted presigned URL for `key`. */
  function UrlText(host: string, key: string, query: string): string {
    "https://" + host + "/" + key + "?" + query
  }

  lemma SplitSchemeHttps(rest: string)
    ensures SplitScheme("https:" + rest) == ("https", rest)
  {
    var url := "https:" + rest;
    assert url == "https" + (":" + rest);
    IndexOfAnyAppend("https", ":" + rest, {':'});
    assert url[..5] == "https" && url[6..] == rest;
    assert Lower("https") == "https";
  }

  lemma AfterNetlocOfHost(host: string, tail: string)
    requires '/' !in host && '?' !in host && '#' !in host
    requires |tail| > 0 && tail[0] == '/'
    ensures AfterNetloc("//" + host + tail) == tail
  {
    var rest := "//" + host + tail;
    assert rest[..2] == "//";
    assert rest[2..] == host + tail;
    IndexOfAnyAppend(host, tail, {'/', '?', '#'});
    assert rest[2 + |host|..] == tail;
  }

  lemma DropQueryOfKey(key: string, query: string)
    requires '?' !in key && '#' !in key
    requires '#' !in query
    ensures DropQueryAndFragment("/" + key + "?" + query) == "/" + key
  {
    var s := "/" + key + "?" + query;
    var p := "/" + key;
    assert s == p + ("?" + query);
    forall k | 0 <= k < |s| ensures s[k] != '#' {
      if 1 <= k < 1 + |key| {
        assert s[k] == key[k - 1];
      } else if k > 1 + |key| {
        assert s[k] == query[k - 2 - |key|];
      }
    }
    IndexOfAnyAbsent(s, {'#'});
    assert s[..|s|] == s;
    forall k | 0 <= k < |p| ensures p[k] != '?' {
      if k >= 1 {
        assert p[k] == key[k - 1];
      }
    }
    IndexOfAnyAppend(p, "?" + query, {'?'});
    assert s[..|p|] == p;
  }

  /** The path of a virtual-hosted URL is `/` and the key, whatever the
      host and the signature query. */
  lemma UrlPathOfUrlText(host: string, key: string, query: string)
    requires '/' !in host && '?' !in host && '#' !in host
    requires '?' !in key && '#' !in key && ';' !in key
    requires '#' !in query
    requires NoUnsafe(host) && NoUnsafe(key) && NoUnsafe(query)
    ensures UrlPath(UrlText(host, key, query)) == "/" + key
  {
    var tail := "/" + key + "?" + query;
    var rest := "//" + host + tail;
    var path := "/" + key;
    UrlTextIsClean(host, key, query);
    assert UrlText(host, key, query) == "https:" + rest;
    SplitSchemeHttps(rest);
    AfterNetlocOfHost(host, tail);
    DropQueryOfKey(key, query);
    assert DropQueryAndFragment(AfterNetloc(rest)) == path;
    NotInAfterSlash(';', key);
  }

  /** The clean-up leaves a URL built from clean parts as it is. */
  lemma UrlTextIsClean(host: string, key: string, query: string)
    requires NoUnsafe(host) && NoUnsafe(key) && NoUnsafe(query)
    ensures Cleaned(UrlText(host, key, query)) == UrlText(host, key, query)
  {
    var url := UrlText(host, key, query);
    assert url[0] == 'h';
    assert LStripC0(url) == url;
    forall k | 0 <= k < |url| ensures !IsUnsafe(url[k]) {
      if 8 <= k < 8 + |host| {
        assert url[k] == host[k - 8];
      } else if 9 + |host| <= k < 9 + |host| + |key| {
        assert url[k] == key[k - 9 - |host|];
      } else if 10 + |host| + |key| <= k {
        assert url[k] == query[k - 10 - |host| - |key|];
      }
    }
  }

  /** A character other than `/` that is not in `key` is not in `/key`. */
  lemma NotInAfterSlash(c: char, key: string)
    requires c != '/' && c !in key
    ensures c !in "/" + key
  {
    var path := "/" + key;
    forall k | 0 <= k < |path| ensures path[k] != c {
      if k >= 1 {
        assert path[k] == key[k - 1];
      }
    }
  }

  /** Blanks and controls in front of a URL change neither its key nor
      whether it splits. */
  lemma LeadingBlanksIgnored(pad: string, url: string)
    requires forall k :: 0 <= k < |pad| ==> IsC0OrSpace(pad[k])
    ensures ScriptKeyOf(pad + url) == ScriptKeyOf(url)
    ensures UrlSplits(pad + url) == UrlSplits(url)
  {
    LStripC0Padded(pad, url);
    SameCleanedSameKey(pad + url, url);
  }

  /** Key and split depend on a URL only through its cleaned text. */
  lemma SameCleanedSameKey(u: string, v: string)
    requires Cleaned(u) == Cleaned(v)
    ensures ScriptKeyOf(u) == ScriptKeyOf(v) && UrlSplits(u) == UrlSplits(v)
  {
  }

  /** Tab, carriage return and line feed anywhere in a URL change neither
      its key nor whether it splits. */
  lemma {:induction false} UnsafeIgnored(a: string, c: char, b: string)
    requires IsUnsafe(c) && a != [] && !IsC0OrSpace(a[0])
    ensures ScriptKeyOf(a + [c] + b) == ScriptKeyOf(a + b)
    ensures UrlSplits(a + [c] + b) == UrlSplits(a + b)
  {
    assert LStripC0(a + [c] + b) == a + [c] + b;
    assert LStripC0(a + b) == a + b;
    RemoveUnsafeSkips(a, c, b);
    SameCleanedSameKey(a + [c] + b, a + b);
  }

  lemma {:induction false} RemoveUnsafeSkips(a: string, c: char, b: string)
    requires IsUnsafe(c)
    ensures RemoveUnsafe(a + [c] + b) == RemoveUnsafe(a + b)
    decreases |a|
  {
    if a == [] {
      assert a + [c] + b == [c] + b && ([c] + b)[1..] == b;
      assert a + b == b;
    } else {
      assert (a + [c] + b)[1..] == a[1..] + [c] + b;
      assert (a + b)[1..] == a[1..] + b;
      RemoveUnsafeSkips(a[1..], c, b);
    }
  }

  /** The key read back from the URL of a key is that key. */
  lemma ScriptKeyOfUrlText(host: string, key: string, query: string)
    requires '/' !in host && '?' !in host && '#' !in host
    requires '?' !in key && '#' !in key && ';' !in key
    requires key == [] || key[0] != '/'
    requires '#' !in query
    requires NoUnsafe(host) && NoUnsafe(key) && NoUnsafe(query)
    requires ('[' in host) == (']' in host)
    ensures ScriptKeyOf(UrlText(host, key, query)) == key
    ensures UrlSplits(UrlText(host, key, query))
  {
    UrlPathOfUrlText(host, key, query);
    assert ("/" + key)[1..] == key;
    UrlTextSplits(host, key, query);
  }

  /** A virtual-hosted URL whose host has balanced brackets splits. */
  lemma UrlTextSplits(host: string, key: string, query: string)
    requires '/' !in host && '?' !in host && '#' !in host
    requires NoUnsafe(host) && NoUnsafe(key) && NoUnsafe(query)
    requires ('[' in host) == (']' in host)
    ensures UrlSplits(UrlText(host, key, query))
  {
    var tail := "/" + key + "?" + query;
    var rest := "//" + host + tail;
    UrlTextIsClean(host, key, query);
    assert UrlText(host, key, query) == "https:" + rest;
    SplitSchemeHttps(rest);
    NetlocOfHost(host, tail);
  }

  lemma NetlocOfHost(host: string, tail: string)
    requires '/' !in host && '?' !in host && '#' !in host
    requires |tail| > 0 && tail[0] == '/'
    ensures Netloc("//" + host + tail) == host
  {
    var rest := "//" + host + tail;
    assert rest[..2] == "//";
    assert rest[2..] == host + tail;
    IndexOfAnyAppend(host, tail, {'/', '?', '#'});
    assert rest[2..2 + |host|] == host;
  }

  /** Round trip of the script key: the key minted for the worker's script
      upload is the key read back from that upload's URL. */
  lemma MintedScriptKeyRoundTrip(inputKey: string, ts: nat, host: string, query: string)
    requires '/' !in host && '?' !in host && '#' !in host
    requires '#' !in query
    requires NoUnsafe(host) && NoUnsafe(query)
    requires ('[' in host) == (']' in host)
    ensures var key := MintAccessUrls(inputKey, ts).scriptUpload.key;
            ScriptKeyOf(UrlText(host, key, query)) == key && UrlSplits(UrlText(host, key, query))
  {
    var key := ScriptKey(ts);
    var d := NatToString(ts);
    assert key == ScriptPrefix + d + ScriptSuffix;
    forall k | 0 <= k < |key| ensures key[k] != '?' && key[k] != '#' && key[k] != ';' && !IsUnsafe(key[k]) {
      if |ScriptPrefix| <= k < |ScriptPrefix| + |d| {
        assert key[k] == d[k - |ScriptPrefix|];
      }
    }
    ScriptKeyOfUrlText(host, key, query);
  }
}
