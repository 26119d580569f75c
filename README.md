# Downloads service model

This project is a Dafny model of the decision logic of the NestJS `DownloadsService`. The service takes a media URL and a quality hint and then:

- looks up the title with `yt-dlp --get-title`, falling back to `archivo_descargado`;
- replaces the characters `\ / : * ? " < > |` in the title with `_`;
- chooses a cookie file: a per-request copy of the deployment secret, or a local file;
- builds the `yt-dlp` argument vector for an mp3 extraction or an mp4 merge;
- runs the tool and checks that its output file exists;
- returns a stream named `{title}.{format}`;
- deletes the temporary files when that stream closes.

The model has five modules:

- `Wrappers`: the `Option` and `Result` datatypes.
- `JsText`: ECMAScript `String.prototype.trim`. It is specified declaratively by `IsTrimOf`, and `Trim` is proved to be the only function that meets it.
- `JsNumber`: the decimal rendering a template literal gives an integer of magnitude below 10^21, which covers every exit code Node reports. A digit reader is its inverse.
- `NodePath`: `path.join` of a directory and one file name.
- `DownloadsService`: the service itself.

The service's dependencies on the outside world are all inputs, gathered in the `World` datatype:

- the request id (a `uuidv4()` in the service);
- `os.tmpdir()`;
- the set of files that exist;
- the title query's exit status and standard output;
- whether `copyFileSync` succeeds;
- the download run's exit status and whether it wrote its output file.

Both `close` handlers can report an exit code or a signal. A signal is modelled as `Signalled`, which Node reports as code `null`.

Behaviour worth noting:

- The fallback title is `archivo_descargado`.
- No failure path cleans up. A request that fails after the cookie copy was made keeps that copy, and a run that fails after writing its output keeps that too. `EjecutarDescarga` states the files that exist when it returns.

## Model

| member | source | states |
|---|---|---|
| JsText.Trim | src/downloads/downloads.service.ts:154 | `output.trim()` yields a piece of the text with only white space before and after it and none at either end |
| JsText.IsTrimOfUnique | src/downloads/downloads.service.ts:154 | a text has only one trim in that declarative sense |
| JsText.TrimUnique | src/downloads/downloads.service.ts:154 | any string that is a trim of the text, in that declarative sense, equals `Trim` of it |
| JsText.TrimPadded | src/downloads/downloads.service.ts:154 | trimming a trimmed text padded with white space on both sides gives back the text |
| JsText.TrimIdempotent | src/downloads/downloads.service.ts:154 | trimming twice is trimming once |
| JsNumber.NatToString | src/downloads/downloads.service.ts:170 | a natural renders as a non-empty run of digits that starts with `0` exactly when the number is 0 |
| JsNumber.ParseNatToString | src/downloads/downloads.service.ts:170 | reading back the digits of a natural gives the natural |
| JsNumber.IntToString | src/downloads/downloads.service.ts:170 | `${code}` is non-empty, starts with `-` exactly for negatives, and is digits after the first character |
| JsNumber.IntToStringInjective | src/downloads/downloads.service.ts:170 | distinct exit codes render as distinct strings |
| NodePath.Join | src/downloads/downloads.service.ts:60 | the joined path ends with the file name |
| NodePath.JoinInjective | src/downloads/downloads.service.ts:74 | under one directory, distinct file names give distinct paths |
| DownloadsService.ForbiddenIsTheClass | src/downloads/downloads.service.ts:48 | a character is replaced exactly when it is a member of the class `[\\/:*?"<>\|]`; the replacement `_` and the extension dot are not members |
| DownloadsService.Sanitize | src/downloads/downloads.service.ts:48 | the replace keeps the length and maps each forbidden character to `_`, leaving every other character as it was |
| DownloadsService.SanitizeRemovesForbidden | src/downloads/downloads.service.ts:48 | a sanitised title contains none of `\ / : * ? " < > \|` |
| DownloadsService.SanitizeIdempotent | src/downloads/downloads.service.ts:48 | sanitising twice is sanitising once |
| DownloadsService.SanitizeFixedPoints | src/downloads/downloads.service.ts:48 | a title is left unchanged exactly when it has no forbidden character |
| DownloadsService.FallbackTitleIsClean | src/downloads/downloads.service.ts:39 | the fallback title contains no forbidden character |
| DownloadsService.GetVideoTitle | src/downloads/downloads.service.ts:136-158 | the lookup resolves exactly when the query exits with 0, and what it resolves with is the trim of the query's output |
| DownloadsService.ResolveTitle | src/downloads/downloads.service.ts:39-48 | the title used is clean; it is the sanitised trimmed output after a successful query, and the fallback otherwise |
| DownloadsService.TempFileName | src/downloads/downloads.service.ts:73 | `temp_${processId}.${format}` is `temp_`, the id, a dot and the format, in that order |
| DownloadsService.TempFilePath | src/downloads/downloads.service.ts:74 | the media path ends with that file name |
| DownloadsService.TempCookiesPath | src/downloads/downloads.service.ts:60 | the cookie-copy path ends with `cookies_${processId}.txt` |
| DownloadsService.TempFilePathInjective | src/downloads/downloads.service.ts:73-74 | requests with different ids never share a temporary media file |
| DownloadsService.TempPathsDiffer | src/downloads/downloads.service.ts:60-74 | a request's media file and its cookie copy are different files |
| DownloadsService.TempPathsAreNotCookieSources | src/downloads/downloads.service.ts:52-74 | neither temporary path is the secret or the local cookie file |
| DownloadsService.ChooseCookies | src/downloads/downloads.service.ts:52-71 | with the secret present, the copy path is set; the copy is used and created only when copying succeeds, and the local file is then not tried; without the secret, the local file is used when it exists, else nothing |
| DownloadsService.AudioBitrate | src/downloads/downloads.service.ts:90 | the audio quality is the hint followed by `K`, or `192K` for an empty hint |
| DownloadsService.VideoResolution | src/downloads/downloads.service.ts:96 | the height is `1080` for an empty hint and the hint itself otherwise |
| DownloadsService.VideoResolutionIdempotent | src/downloads/downloads.service.ts:28 | applying the `1080` default in `downloadVideo` and again in `ejecutarDescarga` is the same as applying it once |
| DownloadsService.FormatSelectorShape | src/downloads/downloads.service.ts:97-100 | the selector opens with `bestvideo[height<=` followed by the height, and ends with the height and `]`; its length is 44 plus twice the height's |
| DownloadsService.MediaForChoice | src/downloads/downloads.service.ts:89-102 | only `mp3` is an audio extraction, at the hint with `K` or `192K`; every other format is a video selection at the hint or 1080 |
| DownloadsService.FormatSelectorInjective | src/downloads/downloads.service.ts:97-100 | different heights give different format selectors |
| DownloadsService.AudioHasNoVideoOptions | src/downloads/downloads.service.ts:89-102 | an mp3 request carries neither `-f` nor `--merge-output-format` |
| DownloadsService.ArgVectorLayout | src/downloads/downloads.service.ts:76-104 | in a vector of the service's shape the cookie pair, the six common options, the format's options and the URL sit in that order, and it opens with `--cookies` exactly when a cookie file is given |
| DownloadsService.ParseArgsReadsBack | src/downloads/downloads.service.ts:76-104 | an argument vector of the service's shape is unambiguous: parsing it gives back the cookie file, user agent, output path, media options and URL it was built from |
| DownloadsService.BuildArgs | src/downloads/downloads.service.ts:76-104 | the vector pushed is the service's shape for the cookie file (if any), the user agent, the output path, the format's media options and the URL; it starts with `--cookies` exactly when a cookie file is used, and parses back to those options |
| DownloadsService.ExitMessage | src/downloads/downloads.service.ts:170 | a failure message is `Exit Code: ` followed by the code |
| DownloadsService.ExitMessageInjective | src/downloads/downloads.service.ts:170 | different exit statuses, including a signal's `null`, give different messages |
| DownloadsService.RunSpawn | src/downloads/downloads.service.ts:160-171 | the run resolves exactly when the process exits with 0, and otherwise rejects with the exit message |
| DownloadsService.EjecutarDescarga | src/downloads/downloads.service.ts:32-134 | meets `DescargaOutcome`: the vector is the service's shape for the cookie choice (all four cases), user agent, output path, media options and URL; it also fixes the files left behind, the tool error, the missing-output error, success exactly on exit 0 with the output present, and the returned name `{title}.{format}` with the sanitised or fallback title |
| DownloadsService.DownloadAudio | src/downloads/downloads.service.ts:23-25 | everything `DescargaOutcome` states for format `mp3` and the request's hint: the vector, the cookie choice, the files left behind, both errors, the success condition and the title in the name; also an mp3 extraction at the hinted bitrate, and a successful download has a clean name ending in `.mp3` |
| DownloadsService.DownloadVideo | src/downloads/downloads.service.ts:27-30 | everything `DescargaOutcome` states for format `mp4` and the hint defaulted to 1080; also an mp4 no taller than that height, and a successful download has a clean name ending in `.mp4` |
| DownloadsService.ExtensionOutcome | src/downloads/downloads.service.ts:23-30 | for `mp3` and `mp4`, the vector of a run parses back to its invocation, and a successful download is named `{title}.mp3` or `{title}.mp4` with a clean title |
| DownloadsService.FailureOutcome | src/downloads/downloads.service.ts:107-111 | a non-zero exit, or exit 0 with no output file, is a failure with the tool's exit message or `El archivo no se creó.` |
| DownloadsService.SuccessOutcome | src/downloads/downloads.service.ts:130-133 | a run that exits with 0 and leaves its output returns `{title}.{format}` with the resolved title, and the paths the close hook needs |
| DownloadsService.FilenameShape | src/downloads/downloads.service.ts:132 | `${videoTitle}.${format}` ends with a dot and the format, and is clean when the title and the format are |
| DownloadsService.OnStreamClose | src/downloads/downloads.service.ts:118-128 | closing the stream removes the media file and, when the secret existed, the cookie copy; the secret and local cookie files stay and nothing else changes |

## Left out

- A failure to spawn `yt-dlp` is not modelled. Neither child process has an `'error'` listener. A missing executable therefore raises an error event instead of reaching either `close` handler, so the title fallback does not apply to it. The `Exited` statuses, negative codes included, stand only for codes that a `close` event reports.
- Spawning `yt-dlp` and collecting its output are not modelled. The title query's exit status and accumulated standard output, and the download run's exit status and output file, are inputs. The title query's argument list (`--get-title --no-warnings --no-playlist --user-agent`, lines 138-145) is therefore not modelled.
- The 15-minute timeout of `runSpawn` is not modelled. It kills the child and rejects with `Timeout`, and it races the `close` handler. The model has no clock or concurrency. A rejection after the promise has settled has no effect.
- `uuidv4()`, `os.tmpdir()`, `fs.existsSync` and `fs.copyFileSync` become inputs. The `fs` calls are read through the `World` datatype.
- Unlink failures are not modelled. A failed unlink of the media file is logged, and a failed unlink of the cookie copy is ignored. Neither changes the outcome.
- Logging (`Logger`, `console.error` on stderr data) is not modelled.
- Building the `StreamableFile` and reading the stream are not modelled. The close hook is modelled separately, as `OnStreamClose`.
- The UTF-8 decoding of stdout chunks is not modelled. The standard output is taken as a string.
- The controller and the validation of the request body are not part of this model. The `format` field of the request is not read by the service.
- JsNumber.IntToString: does not model the exponent form that Number::toString uses from 10^21 up. It prints digits for every integer, which agrees with the source for every exit code.
- NodePath.Join: does not normalise `.`, `..` or repeated separators as `path.join` does. It only adds a separator between a non-empty directory and the name.
- DownloadsService.TempFilePathInjective: requires the two formats to have the same length. This holds for the only formats used, `mp3` and `mp4`.
- The `ytDlpCommand` field is not modelled. It is the constant `yt-dlp`, and only `spawn` reads it.
