/**
 * The decision logic of DownloadsService: the title lookup and its fallback,
 * title sanitising, the choice of cookie file, the yt-dlp argument vector, the
 * outcome of a run, and the clean-up that runs when the returned stream closes.
 *
 * Everything the service asks of the outside world is an input here: the
 * request id (a UUID in the service), the temporary directory, the files that
 * exist (a set of paths), what the title query printed and how it exited,
 * whether copying the cookie file succeeds, and how the download run exited
 * and whether it left its output behind.
 */
module DownloadsService {
  import opened Wrappers
  import JsText
  import JsNumber
  import NodePath

  const UserAgent: string :=
    "Mozilla/5.0 (Windows NT 10.0; Win64; x64) AppleWebKit/537.36 (KHTML, like Gecko) Chrome/120.0.0.0 Safari/537.36"

  /** The name used when the title lookup fails. */
  const FallbackTitle: string := "archivo_descargado"

  /** Cookies provisioned as a deployment secret; preferred, and never handed to yt-dlp directly. */
  const SecretsCookiesPath: string := "/etc/secrets/cookies.txt"

  /** Cookies next to the working directory, used only when there is no secret file. */
  const LocalCookiesPath: string := "./cookies.txt"

  const DefaultBitrate: string := "192K"
  const DefaultHeight: string := "1080"
  const OutputMissingMessage: string := "El archivo no se creó."

  // ---------------------------------------------------------------------------
  // Processes and the world they run in

  /** How a child process ended: with an exit code, or killed by a signal (Node reports code null). */
  datatype ExitStatus = Exited(code: int) | Signalled

  /** What the `--get-title` query of yt-dlp printed and how it exited. */
  datatype TitleQuery = TitleQuery(status: ExitStatus, stdout: string)

  /** How the download run of yt-dlp exited, and whether it wrote its output file. */
  datatype FetchRun = FetchRun(status: ExitStatus, createsOutput: bool)

  /** Everything one request depends on besides its URL, quality and format. */
  datatype World = World(
    id: string,
    tmpDir: string,
    files: set<string>,
    titleQuery: TitleQuery,
    copySucceeds: bool,
    fetch: FetchRun)

  /** The request body: the media URL and the quality hint. */
  datatype DownloadRequest = DownloadRequest(url: string, quality: string)

  /** The errors a download can end with. */
  datatype DownloadError = ToolFailed(message: string) | OutputMissing(message: string)

  /**
   * A finished download: the name offered to the client, and what the stream's
   * close hook needs to find the temporary files (the hook captures the media
   * path, and the cookie-copy path, which is set whenever the secret file exists).
   */
  datatype Download = Download(filename: string, tmpDir: string, id: string, format: string, secretsPresent: bool) {
    function TempFile(): string {
      TempFilePath(tmpDir, id, format)
    }

    function TempCookies(): string {
      if secretsPresent then TempCookiesPath(tmpDir, id) else ""
    }
  }

  // ---------------------------------------------------------------------------
  // Title

  /** The members of the character class `[\\/:*?"<>|]`, as written in the title replace. */
  const ForbiddenClass: string := "\\/:*?\"<>|"

  /** The characters the title replace matches. */
  predicate IsForbidden(c: char) {
    c == '\\' || c == '/' || c == ':' || c == '*' || c == '?' || c == '"' || c == '<' || c == '>' || c == '|'
  }

  /**
   * IsForbidden holds exactly for the members of the class; the replacement
   * `_` and the extension dot are not among them.
   */
  lemma ForbiddenIsTheClass(c: char)
    ensures IsForbidden(c) <==> c in ForbiddenClass
    ensures IsForbidden(c) ==> c != '_' && c != '.'
  {
  }

  predicate HasNoForbidden(s: string) {
    forall i :: 0 <= i < |s| ==> !IsForbidden(s[i])
  }

  /** The global replace of every forbidden character by `_`, left to right. */
  function Sanitize(s: string): (r: string)
    ensures |r| == |s|
    ensures forall i :: 0 <= i < |s| ==> r[i] == if IsForbidden(s[i]) then '_' else s[i]
  {
    if s == [] then [] else [if IsForbidden(s[0]) then '_' else s[0]] + Sanitize(s[1..])
  }

  lemma SanitizeRemovesForbidden(s: string)
    ensures HasNoForbidden(Sanitize(s))
  {
  }

  lemma SanitizeIdempotent(s: string)
    ensures Sanitize(Sanitize(s)) == Sanitize(s)
  {
  }

  /** A title is left as it is exactly when it has no forbidden character. */
  lemma SanitizeFixedPoints(s: string)
    ensures Sanitize(s) == s <==> HasNoForbidden(s)
  {
    if !HasNoForbidden(s) {
      var i :| 0 <= i < |s| && IsForbidden(s[i]);
      assert Sanitize(s)[i] != s[i];
    }
  }

  /** The fallback name needs no sanitising. */
  lemma FallbackTitleIsClean()
    ensures HasNoForbidden(FallbackTitle)
  {
    forall i | 0 <= i < |FallbackTitle| ensures !IsForbidden(FallbackTitle[i]) {
      assert FallbackTitle[i] in FallbackTitle;
    }
  }

  /** getVideoTitle: resolves with the trimmed output of a query that exited with 0, rejects otherwise. */
  function GetVideoTitle(q: TitleQuery): (t: Option<string>)
    ensures t.Some? <==> q.status == Exited(0)
    ensures t.Some? ==> JsText.IsTrimOf(q.stdout, t.value)
  {
    if q.status == Exited(0) then Some(JsText.Trim(q.stdout)) else None
  }

  /**
   * The title steps of ejecutarDescarga: start from the fallback, take the
   * looked-up title when the query succeeds, then sanitise.
   */
  method ResolveTitle(q: TitleQuery) returns (videoTitle: string)
    ensures HasNoForbidden(videoTitle)
    ensures q.status == Exited(0) ==> videoTitle == Sanitize(JsText.Trim(q.stdout))
    ensures q.status != Exited(0) ==> videoTitle == FallbackTitle
  {
    videoTitle := FallbackTitle;
    var looked := GetVideoTitle(q);
    if looked.Some? {
      videoTitle := looked.value;
    }
    FallbackTitleIsClean();
    SanitizeFixedPoints(FallbackTitle);
    SanitizeRemovesForbidden(videoTitle);
    videoTitle := Sanitize(videoTitle);
  }

  // ---------------------------------------------------------------------------
  // Names

  /** `temp_${processId}.${format}`: the prefix, the id, a dot, and the format last. */
  function TempFileName(id: string, format: string): (n: string)
    ensures |n| == 6 + |id| + |format|
    ensures n[..5] == "temp_" && n[5..5 + |id|] == id && n[5 + |id|] == '.' && n[6 + |id|..] == format
  {
    "temp_" + id + "." + format
  }

  /** The media file under the temporary directory: its path ends with the file name. */
  function TempFilePath(tmpDir: string, id: string, format: string): (p: string)
    ensures var n := TempFileName(id, format); |p| >= |n| && p[|p| - |n|..] == n
  {
    NodePath.Join(tmpDir, TempFileName(id, format))
  }

  /** `cookies_${processId}.txt` under the temporary directory. */
  function TempCookiesPath(tmpDir: string, id: string): (p: string)
    ensures var n := "cookies_" + id + ".txt"; |p| >= |n| && p[|p| - |n|..] == n
    ensures |p| >= 4 && p[|p| - 4..] == ".txt"
  {
    NodePath.Join(tmpDir, "cookies_" + id + ".txt")
  }

  /**
   * The media path determines the id and the format (for formats of one
   * length, as mp3 and mp4 are): requests with different ids never share a
   * temporary media file.
   */
  lemma TempFilePathInjective(tmpDir: string, id1: string, format1: string, id2: string, format2: string)
    requires |format1| == |format2|
    requires TempFilePath(tmpDir, id1, format1) == TempFilePath(tmpDir, id2, format2)
    ensures id1 == id2 && format1 == format2
  {
    var n1, n2 := TempFileName(id1, format1), TempFileName(id2, format2);
    NodePath.JoinInjective(tmpDir, n1, n2);
    assert |id1| == |id2|;
    assert id1 == n1[5..5 + |id1|];
    assert id2 == n2[5..5 + |id2|];
    assert format1 == n1[|n1| - |format1|..];
    assert format2 == n2[|n2| - |format2|..];
  }

  /** Within one request the media file and the cookie copy are different files. */
  lemma TempPathsDiffer(tmpDir: string, id: string, format: string)
    ensures TempFilePath(tmpDir, id, format) != TempCookiesPath(tmpDir, id)
  {
    var n1, n2 := TempFileName(id, format), "cookies_" + id + ".txt";
    NodePath.JoinInjective(tmpDir, n1, n2);
    assert n1[0] != n2[0];
  }

  /** The temporary files are never the cookie files the service reads. */
  lemma TempPathsAreNotCookieSources(tmpDir: string, id: string, format: string)
    ensures TempFilePath(tmpDir, id, format) !in {SecretsCookiesPath, LocalCookiesPath}
    ensures TempCookiesPath(tmpDir, id) !in {SecretsCookiesPath, LocalCookiesPath}
  {
    var n1, n2 := TempFileName(id, format), "cookies_" + id + ".txt";
    var p1, p2 := TempFilePath(tmpDir, id, format), TempCookiesPath(tmpDir, id);
    assert p1[|p1| - |n1| + 4] == n1[4] == '_';
    assert p2[|p2| - |n2| + 7] == n2[7] == '_';
    assert '_' in p1 && '_' in p2;
    assert '_' !in SecretsCookiesPath && '_' !in LocalCookiesPath;
  }

  // ---------------------------------------------------------------------------
  // Cookies

  /**
   * The cookie step: with the secret file present, a per-request copy is made
   * and used if the copy succeeds (a failed copy means no cookies, and the local
   * file is not tried); without it, the local file is used if present.
   */
  method ChooseCookies(files: set<string>, tmpDir: string, id: string, copySucceeds: bool)
    returns (cookiesToUse: string, tempCookiesPath: string, after: set<string>)
    ensures SecretsCookiesPath in files ==> tempCookiesPath == TempCookiesPath(tmpDir, id) && tempCookiesPath != ""
    ensures SecretsCookiesPath in files && copySucceeds ==>
              cookiesToUse == tempCookiesPath && after == files + {tempCookiesPath}
    ensures SecretsCookiesPath in files && !copySucceeds ==> cookiesToUse == "" && after == files
    ensures SecretsCookiesPath !in files ==> tempCookiesPath == "" && after == files
    ensures SecretsCookiesPath !in files && LocalCookiesPath in files ==> cookiesToUse == LocalCookiesPath
    ensures SecretsCookiesPath !in files && LocalCookiesPath !in files ==> cookiesToUse == ""
  {
    cookiesToUse, tempCookiesPath, after := "", "", files;
    if SecretsCookiesPath in files {
      tempCookiesPath := TempCookiesPath(tmpDir, id);
      if copySucceeds {
        after := after + {tempCookiesPath};
        cookiesToUse := tempCookiesPath;
      }
    } else if LocalCookiesPath in files {
      cookiesToUse := LocalCookiesPath;
    }
  }

  // ---------------------------------------------------------------------------
  // Arguments

  /** The audio quality flag: the hint with `K` appended, `192K` when the hint is empty. */
  function AudioBitrate(qualityParam: string): (b: string)
    ensures |b| >= 2 && b[|b| - 1] == 'K'
    ensures b[..|b| - 1] == if qualityParam == "" then "192" else qualityParam
  {
    if qualityParam != "" then qualityParam + "K" else DefaultBitrate
  }

  /** The maximum height: the hint, `1080` when the hint is empty. */
  function VideoResolution(qualityParam: string): (res: string)
    ensures res != ""
    ensures qualityParam == "" ==> res == DefaultHeight
    ensures qualityParam != "" ==> res == qualityParam
  {
    if qualityParam != "" then qualityParam else DefaultHeight
  }

  /** Applying the height default twice, as downloadVideo and the shared path do, is applying it once. */
  lemma VideoResolutionIdempotent(qualityParam: string)
    ensures VideoResolution(VideoResolution(qualityParam)) == VideoResolution(qualityParam)
  {
  }

  /** The yt-dlp format selector: best video no taller than `res` with best audio, else best single file no taller. */
  function FormatSelector(res: string): string {
    "bestvideo[height<=" + res + "]+bestaudio/best[height<=" + res + "]"
  }

  /** Different heights give different selectors. */
  lemma FormatSelectorInjective(a: string, b: string)
    requires FormatSelector(a) == FormatSelector(b)
    ensures a == b
  {
    FormatSelectorShape(a);
    FormatSelectorShape(b);
  }

  /**
   * The selector opens with `bestvideo[height<=`, then the height, and its
   * length grows by two characters per character of the height (it is used twice).
   */
  lemma FormatSelectorShape(res: string)
    ensures var sel := FormatSelector(res);
            && |sel| == 44 + 2 * |res|
            && sel[..18] == "bestvideo[height<="
            && sel[18..18 + |res|] == res
            && sel[|sel| - 1 - |res|..|sel| - 1] == res && sel[|sel| - 1] == ']'
  {
    var sel := FormatSelector(res);
    assert sel == ("bestvideo[height<=" + res + "]+bestaudio/best[height<=") + res + "]";
  }

  /** What a yt-dlp invocation asks for, read back from its arguments. */
  datatype Media = Audio(bitrate: string) | Video(selector: string)

  datatype Invocation = Invocation(cookies: Option<string>, userAgent: string, output: string, media: Media, url: string)

  /** The media part the service asks for: mp3 extraction, or any other format as an mp4 merge. */
  function MediaFor(format: string, qualityParam: string): Media {
    if format == "mp3" then Audio(AudioBitrate(qualityParam)) else Video(FormatSelector(VideoResolution(qualityParam)))
  }

  /**
   * Only `mp3` is an audio extraction, at the hint in kbit/s or 192; every
   * other format is a video no taller than the hint, or 1080.
   */
  lemma MediaForChoice(format: string, qualityParam: string)
    ensures var m := MediaFor(format, qualityParam);
            && (m.Audio? <==> format == "mp3")
            && (m.Audio? ==> m.bitrate == (if qualityParam == "" then "192" else qualityParam) + "K")
            && (m.Video? ==> m.selector == FormatSelector(if qualityParam == "" then "1080" else qualityParam))
  {
  }

  /** Reads an argument vector of the shape the service emits; None for any other shape. */
  function ParseArgs(args: seq<string>): Option<Invocation> {
    if |args| >= 2 && args[0] == "--cookies" then ParseCommon(Some(args[1]), args[2..]) else ParseCommon(None, args)
  }

  function ParseCommon(cookies: Option<string>, rest: seq<string>): Option<Invocation> {
    if |rest| >= 6 && rest[0] == "--user-agent" && rest[2] == "--no-playlist" && rest[3] == "-o"
       && rest[5] == "--force-overwrites"
    then
      var tail := rest[6..];
      if |tail| == 7 && tail[0] == "-x" && tail[1] == "--audio-format" && tail[2] == "mp3"
         && tail[3] == "--audio-quality" && tail[5] == "--add-metadata"
      then Some(Invocation(cookies, rest[1], rest[4], Audio(tail[4]), tail[6]))
      else if |tail| == 5 && tail[0] == "-f" && tail[2] == "--merge-output-format" && tail[3] == "mp4"
      then Some(Invocation(cookies, rest[1], rest[4], Video(tail[1]), tail[4]))
      else None
    else
      None
  }

  /** The `--cookies` pair for a cookie file, nothing without one. */
  function CookiePair(cookies: Option<string>): seq<string> {
    match cookies
    case Some(c) => ["--cookies", c]
    case None => []
  }

  function CommonArgs(userAgent: string, output: string): seq<string> {
    ["--user-agent", userAgent, "--no-playlist", "-o", output, "--force-overwrites"]
  }

  /** The options that select the media: an mp3 extraction or a merge into mp4. */
  function MediaArgs(media: Media): seq<string> {
    match media
    case Audio(bitrate) => ["-x", "--audio-format", "mp3", "--audio-quality", bitrate, "--add-metadata"]
    case Video(selector) => ["-f", selector, "--merge-output-format", "mp4"]
  }

  /** The mp3 options carry no video format selection or merge. */
  lemma AudioHasNoVideoOptions(qualityParam: string)
    ensures "-f" !in MediaArgs(MediaFor("mp3", qualityParam))
    ensures "--merge-output-format" !in MediaArgs(MediaFor("mp3", qualityParam))
  {
    var b := AudioBitrate(qualityParam);
    assert b != "-f" && b != "--merge-output-format" by {
      assert b[|b| - 1] == 'K';
    }
  }

  /** The vector of the service's shape for an invocation: cookie pair, common options, media options, URL. */
  function ArgVector(inv: Invocation): seq<string> {
    CookiePair(inv.cookies) + CommonArgs(inv.userAgent, inv.output) + MediaArgs(inv.media) + [inv.url]
  }

  /**
   * A vector of the service's shape reads back as the options it was made
   * from: the shape is unambiguous, whatever the values in it.
   */
  lemma ParseArgsReadsBack(inv: Invocation)
    ensures ParseArgs(ArgVector(inv)) == Some(inv)
  {
    var pair, rest := CookiePair(inv.cookies), CommonArgs(inv.userAgent, inv.output) + MediaArgs(inv.media) + [inv.url];
    var args := ArgVector(inv);
    assert args == pair + rest;
    ParseCommonReadsBack(inv);
    if inv.cookies.Some? {
      assert args[2..] == rest;
    } else {
      assert args == rest;
      assert args[0] == "--user-agent";
    }
  }

  /** The part after the cookie pair reads back as the rest of the invocation. */
  lemma ParseCommonReadsBack(inv: Invocation)
    ensures ParseCommon(inv.cookies, CommonArgs(inv.userAgent, inv.output) + MediaArgs(inv.media) + [inv.url]) == Some(inv)
  {
    var rest := CommonArgs(inv.userAgent, inv.output) + MediaArgs(inv.media) + [inv.url];
    assert rest[6..] == MediaArgs(inv.media) + [inv.url];
  }

  /** Where the four parts sit in the vector, and that it opens with `--cookies` exactly when a cookie file is given. */
  lemma ArgVectorLayout(inv: Invocation)
    ensures var a, k := ArgVector(inv), |CookiePair(inv.cookies)|;
            && k == (if inv.cookies.Some? then 2 else 0)
            && |a| > k + 6
            && a[..k] == CookiePair(inv.cookies)
            && a[k..k + 6] == CommonArgs(inv.userAgent, inv.output)
            && a[k + 6..|a| - 1] == MediaArgs(inv.media)
            && a[|a| - 1] == inv.url
            && (a[0] == "--cookies") == inv.cookies.Some?
  {
    var pair, common, media := CookiePair(inv.cookies), CommonArgs(inv.userAgent, inv.output), MediaArgs(inv.media);
    var a := ArgVector(inv);
    assert a == pair + common + media + [inv.url];
    assert a[|pair|] == "--user-agent";
  }

  /**
   * The argument vector, built push by push: an optional `--cookies` pair, the
   * common options, the format-specific options, and the URL last. Reading it
   * back gives exactly the options asked for.
   */
  method BuildArgs(cookiesToUse: string, tempFilePath: string, format: string, qualityParam: string, videoUrl: string)
    returns (args: seq<string>)
    ensures args == ArgVector(Invocation(if cookiesToUse != "" then Some(cookiesToUse) else None,
                                         UserAgent, tempFilePath, MediaFor(format, qualityParam), videoUrl))
    ensures (args[0] == "--cookies") == (cookiesToUse != "")
    ensures ParseArgs(args) ==
            Some(Invocation(if cookiesToUse != "" then Some(cookiesToUse) else None,
                            UserAgent, tempFilePath, MediaFor(format, qualityParam), videoUrl))
  {
    ghost var inv := Invocation(if cookiesToUse != "" then Some(cookiesToUse) else None,
                                UserAgent, tempFilePath, MediaFor(format, qualityParam), videoUrl);
    ghost var pair, common, media := CookiePair(inv.cookies), CommonArgs(UserAgent, tempFilePath), MediaArgs(inv.media);

    args := [];
    if cookiesToUse != "" {
      args := args + ["--cookies", cookiesToUse];
    }
    assert args == pair;
    args := args + ["--user-agent", UserAgent];
    args := args + ["--no-playlist"];
    args := args + ["-o", tempFilePath];
    args := args + ["--force-overwrites"];
    assert args == pair + common;
    if format == "mp3" {
      var bitrate := AudioBitrate(qualityParam);
      args := args + ["-x"];
      args := args + ["--audio-format", "mp3"];
      args := args + ["--audio-quality", bitrate];
      args := args + ["--add-metadata"];
    } else {
      var res := VideoResolution(qualityParam);
      args := args + ["-f", FormatSelector(res)];
      args := args + ["--merge-output-format", "mp4"];
    }
    assert args == pair + common + media;
    args := args + [videoUrl];

    ParseArgsReadsBack(inv);
    ArgVectorLayout(inv);
  }

  // ---------------------------------------------------------------------------
  // Outcome

  /** The message of a failed run: `Exit Code: ${code}`, with `null` for a signal. */
  function ExitMessage(s: ExitStatus): (m: string)
    ensures |m| > 11 && m[..11] == "Exit Code: "
  {
    "Exit Code: " + match s
      case Exited(code) => JsNumber.IntToString(code)
      case Signalled => "null"
  }

  /** Different exit statuses give different messages. */
  lemma ExitMessageInjective(a: ExitStatus, b: ExitStatus)
    requires ExitMessage(a) == ExitMessage(b)
    ensures a == b
  {
    var ma, mb := ExitMessage(a), ExitMessage(b);
    match a {
      case Exited(x) =>
        assert ma[11..] == JsNumber.IntToString(x);
        assert ma[11] == '-' || JsNumber.IsDigit(ma[11]);
        match b {
          case Exited(y) =>
            assert mb[11..] == JsNumber.IntToString(y);
            JsNumber.IntToStringInjective(x, y);
          case Signalled =>
        }
      case Signalled =>
        match b {
          case Exited(y) =>
          case Signalled =>
        }
    }
  }

  /** runSpawn: resolves when the process exits with 0, rejects with the exit message otherwise. */
  function RunSpawn(status: ExitStatus): (r: Result<(), DownloadError>)
    ensures r.Success? <==> status == Exited(0)
    ensures r.Failure? ==> r.error == ToolFailed(ExitMessage(status))
  {
    if status == Exited(0) then Success(()) else Failure(ToolFailed(ExitMessage(status)))
  }

  /**
   * What one run of ejecutarDescarga promises about the argument vector handed
   * to yt-dlp, the outcome, and the files that exist when it returns. Only a
   * run that exits with 0 and leaves the output file behind succeeds; no path
   * cleans up before the stream is returned, so a failed request keeps its
   * cookie copy.
   */
  ghost predicate DescargaOutcome(videoUrl: string, qualityParam: string, format: string, w: World,
                                  args: seq<string>, r: Result<Download, DownloadError>, files: set<string>)
  {
    && VectorOutcome(videoUrl, qualityParam, format, w, args)
    && FilesOutcome(format, w, files)
    && ResultOutcome(format, w, files, r)
  }

  /**
   * The cookie file handed to yt-dlp: the per-request copy when the secret
   * exists and copying it succeeds, nothing when that copy fails, and
   * otherwise the local file when it exists.
   */
  function CookieChoice(w: World): Option<string> {
    if SecretsCookiesPath in w.files then
      if w.copySucceeds then Some(TempCookiesPath(w.tmpDir, w.id)) else None
    else if LocalCookiesPath in w.files then Some(LocalCookiesPath)
    else None
  }

  /** The vector handed to yt-dlp is the service's shape for the cookie choice, user agent, output, media and URL. */
  ghost predicate VectorOutcome(videoUrl: string, qualityParam: string, format: string, w: World, args: seq<string>) {
    args == ArgVector(Invocation(CookieChoice(w), UserAgent, TempFilePath(w.tmpDir, w.id, format),
                                 MediaFor(format, qualityParam), videoUrl))
  }

  /** The files that exist afterwards: the cookie copy if it was made, and the output if the run wrote it. */
  ghost predicate FilesOutcome(format: string, w: World, files: set<string>) {
    var afterCopy :=
      if SecretsCookiesPath in w.files && w.copySucceeds then w.files + {TempCookiesPath(w.tmpDir, w.id)} else w.files;
    files == if w.fetch.createsOutput then afterCopy + {TempFilePath(w.tmpDir, w.id, format)} else afterCopy
  }

  /** The errors, the success condition, and the download returned with its name. */
  ghost predicate ResultOutcome(format: string, w: World, files: set<string>, r: Result<Download, DownloadError>) {
    var tempFilePath := TempFilePath(w.tmpDir, w.id, format);
    && (w.fetch.status != Exited(0) ==> r == Failure(ToolFailed(ExitMessage(w.fetch.status))))
    && (w.fetch.status == Exited(0) && tempFilePath !in files ==> r == Failure(OutputMissing(OutputMissingMessage)))
    && (r.Success? <==> w.fetch.status == Exited(0) && tempFilePath in files)
    && (r.Success? ==>
          && r.value.tmpDir == w.tmpDir && r.value.id == w.id && r.value.format == format
          && r.value.secretsPresent == (SecretsCookiesPath in w.files))
    && (r.Success? ==>
          var f := r.value.filename;
          && |f| > |format| && f[|f| - |format| - 1] == '.' && f[|f| - |format|..] == format
          && (HasNoForbidden(format) ==> HasNoForbidden(f)))
    && (r.Success? && w.titleQuery.status == Exited(0) ==>
          r.value.filename == Sanitize(JsText.Trim(w.titleQuery.stdout)) + "." + format)
    && (r.Success? && w.titleQuery.status != Exited(0) ==> r.value.filename == FallbackTitle + "." + format)
  }

  /** ejecutarDescarga: the title, the cookie choice, the vector, the run, and the outcome. */
  method EjecutarDescarga(videoUrl: string, qualityParam: string, format: string, w: World)
    returns (args: seq<string>, r: Result<Download, DownloadError>, files: set<string>)
    ensures DescargaOutcome(videoUrl, qualityParam, format, w, args, r, files)
  {
    var videoTitle := ResolveTitle(w.titleQuery);

    var cookiesToUse, tempCookiesPath;
    cookiesToUse, tempCookiesPath, files := ChooseCookies(w.files, w.tmpDir, w.id, w.copySucceeds);
    ghost var afterCopy := files;
    assert afterCopy ==
      if SecretsCookiesPath in w.files && w.copySucceeds then w.files + {TempCookiesPath(w.tmpDir, w.id)} else w.files;

    var uniqueFileName := TempFileName(w.id, format);
    var tempFilePath := NodePath.Join(w.tmpDir, uniqueFileName);

    args := BuildArgs(cookiesToUse, tempFilePath, format, qualityParam, videoUrl);
    assert (if cookiesToUse != "" then Some(cookiesToUse) else None) == CookieChoice(w);

    // yt-dlp runs; whether it writes its output is part of the world
    if w.fetch.createsOutput {
      files := files + {tempFilePath};
    }
    assert files == if w.fetch.createsOutput then afterCopy + {tempFilePath} else afterCopy;
    assert FilesOutcome(format, w, files);
    var run := RunSpawn(w.fetch.status);
    if run.Failure? {
      r := Failure(run.error);
      FailureOutcome(format, w, files, r);
      return;
    }
    if tempFilePath !in files {
      r := Failure(OutputMissing(OutputMissingMessage));
      FailureOutcome(format, w, files, r);
      return;
    }
    var filename := videoTitle + "." + format;
    r := Success(Download(filename, w.tmpDir, w.id, format, tempCookiesPath != ""));
    SuccessOutcome(format, w, files, videoTitle, r);
  }

  /** Either failure of a run meets ResultOutcome. */
  lemma FailureOutcome(format: string, w: World, files: set<string>, r: Result<Download, DownloadError>)
    requires || (w.fetch.status != Exited(0) && r == Failure(ToolFailed(ExitMessage(w.fetch.status))))
             || (&& w.fetch.status == Exited(0) && TempFilePath(w.tmpDir, w.id, format) !in files
                 && r == Failure(OutputMissing(OutputMissingMessage)))
    ensures ResultOutcome(format, w, files, r)
  {
  }

  /** A run that exits with 0 and leaves its output meets ResultOutcome with the resolved title. */
  lemma SuccessOutcome(format: string, w: World, files: set<string>, title: string, r: Result<Download, DownloadError>)
    requires w.fetch.status == Exited(0) && TempFilePath(w.tmpDir, w.id, format) in files
    requires HasNoForbidden(title)
    requires w.titleQuery.status == Exited(0) ==> title == Sanitize(JsText.Trim(w.titleQuery.stdout))
    requires w.titleQuery.status != Exited(0) ==> title == FallbackTitle
    requires r == Success(Download(title + "." + format, w.tmpDir, w.id, format, SecretsCookiesPath in w.files))
    ensures ResultOutcome(format, w, files, r)
  {
    FilenameShape(title, format);
  }

  /** downloadAudio: an mp3 extraction at the requested bitrate. */
  method DownloadAudio(request: DownloadRequest, w: World)
    returns (args: seq<string>, r: Result<Download, DownloadError>, files: set<string>)
    ensures DescargaOutcome(request.url, request.quality, "mp3", w, args, r, files)
    ensures ParseArgs(args).Some? && ParseArgs(args).value.media == Audio(AudioBitrate(request.quality))
    ensures r.Success? ==>
              var f := r.value.filename;
              |f| >= 4 && f[|f| - 4] == '.' && f[|f| - 3..] == "mp3" && HasNoForbidden(f)
  {
    args, r, files := EjecutarDescarga(request.url, request.quality, "mp3", w);
    ExtensionOutcome(request.url, request.quality, "mp3", w, args, r, files);
  }

  /** downloadVideo: an mp4 no taller than the requested height, 1080 when none is given. */
  method DownloadVideo(request: DownloadRequest, w: World)
    returns (args: seq<string>, r: Result<Download, DownloadError>, files: set<string>)
    ensures DescargaOutcome(request.url, VideoResolution(request.quality), "mp4", w, args, r, files)
    ensures ParseArgs(args).Some?
    ensures ParseArgs(args).value.media == Video(FormatSelector(if request.quality == "" then "1080" else request.quality))
    ensures r.Success? ==>
              var f := r.value.filename;
              |f| >= 4 && f[|f| - 4] == '.' && f[|f| - 3..] == "mp4" && HasNoForbidden(f)
  {
    var resolution := VideoResolution(request.quality);
    args, r, files := EjecutarDescarga(request.url, resolution, "mp4", w);
    ExtensionOutcome(request.url, resolution, "mp4", w, args, r, files);
  }

  /**
   * For the two formats the service passes, the vector reads back, and a
   * successful download is named `{title}.mp3` or `{title}.mp4` with a clean title.
   */
  lemma ExtensionOutcome(videoUrl: string, qualityParam: string, format: string, w: World,
                         args: seq<string>, r: Result<Download, DownloadError>, files: set<string>)
    requires format == "mp3" || format == "mp4"
    requires DescargaOutcome(videoUrl, qualityParam, format, w, args, r, files)
    ensures ParseArgs(args) == Some(Invocation(CookieChoice(w), UserAgent, TempFilePath(w.tmpDir, w.id, format),
                                               MediaFor(format, qualityParam), videoUrl))
    ensures r.Success? ==>
              var f := r.value.filename;
              |f| >= 4 && f[|f| - 4] == '.' && f[|f| - 3..] == format && HasNoForbidden(f)
  {
    ParseArgsReadsBack(Invocation(CookieChoice(w), UserAgent, TempFilePath(w.tmpDir, w.id, format),
                                  MediaFor(format, qualityParam), videoUrl));
    ExtensionsAreClean();
  }

  /** `{title}.{format}` ends with a dot and the format, and is clean when both parts are. */
  lemma {:induction false} FilenameShape(title: string, format: string)
    ensures var f := title + "." + format;
            && |f| > |format| && f[|f| - |format| - 1] == '.' && f[|f| - |format|..] == format
            && (HasNoForbidden(title) && HasNoForbidden(format) ==> HasNoForbidden(f))
  {
    var f := title + "." + format;
    assert f[|f| - |format|..] == format;
    if HasNoForbidden(title) && HasNoForbidden(format) {
      forall i | 0 <= i < |f| ensures !IsForbidden(f[i]) {
        if i > |title| {
          assert f[i] == format[i - |title| - 1];
        } else if i < |title| {
          assert f[i] == title[i];
        }
      }
    }
  }

  lemma ExtensionsAreClean()
    ensures HasNoForbidden("mp3") && HasNoForbidden("mp4")
  {
    forall i | 0 <= i < 3 ensures !IsForbidden("mp3"[i]) && !IsForbidden("mp4"[i]) {
      assert "mp3"[i] in "mp3" && "mp4"[i] in "mp4";
    }
  }

  // ---------------------------------------------------------------------------
  // Clean-up

  /**
   * The close hook of the returned stream: removes the media file (a failed
   * unlink is only logged) and the cookie copy when one was set up and exists.
   * The cookie files the service reads are never touched.
   */
  method OnStreamClose(files: set<string>, d: Download) returns (after: set<string>)
    ensures after == files - {d.TempFile()} - (if d.secretsPresent then {d.TempCookies()} else {})
    ensures d.TempFile() !in after
    ensures d.secretsPresent ==> d.TempCookies() !in after
    ensures SecretsCookiesPath in files ==> SecretsCookiesPath in after
    ensures LocalCookiesPath in files ==> LocalCookiesPath in after
  {
    var tempFilePath := d.TempFile();
    var tempCookiesPath := d.TempCookies();
    TempPathsAreNotCookieSources(d.tmpDir, d.id, d.format);
    after := files - {tempFilePath};
    if tempCookiesPath != "" && tempCookiesPath in files {
      after := after - {tempCookiesPath};
    }
  }
}
