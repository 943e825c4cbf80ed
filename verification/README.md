# Third-party helper integration (OpenToonz `ThirdParty`), modelled in Dafny

OpenToonz uses two optional command-line helpers: FFmpeg, the encoder
`ffmpeg` together with its prober `ffprobe`, and Rhubarb Lip Sync
(`rhubarb`). The `ThirdParty` namespace finds these helpers on disk and
keeps the directory and timeout of each in the application preferences. At
start-up it autodetects a helper whose configured directory is invalid, and
it starts the helpers as processes. This project models that decision logic
as pure functions over an abstracted environment:

- the filesystem is a set of existing file paths; the application directory
  and the build platform (`isWindows`) are fields of a `Host` value
  (`Paths.Host`);
- the preferences store is a key -> value map plus the log of every write
  issued to it (`Preferences.Prefs`). The log is how "no write is issued"
  is stated;
- `QProcess::start` is the recorded pair `(program, arguments)`
  (`Launcher.Launch`);
- `QString::number` is a concrete decimal rendering (`Decimal.IntToString`),
  proved injective by a parse round trip.

Modules: `Wrappers` (Option), `Decimal`, `Preferences`, `Paths`
(resolution, probes, candidate lists, autodetection), `ThirdParty` (getters,
change-guarded setters, checks, start-up) and `Launcher` (process launches and
the audio-transcode arguments).

Design notes:
- A preference that is absent, or holds a value of the other kind, reads as
  `""` or `0`. These are the values an invalid QVariant converts to.
- Autodetection returns `""` to mean "not found". The empty string is also a
  legal configured directory, though: it resolves to the application directory
  itself. So `""` comes back in a second case too, when the configured `""`
  is valid. `Paths.AutodetectEmptyIff` states both cases. Start-up only
  autodetects after the configured directory has failed its check, so it
  never meets the second case.
- In the source, start-up calls autodetection only when the check fails.
  The model evaluates both values and then decides. Both are pure, so the
  result is the same.

## Model

| member | source | states |
|---|---|---|
| Paths.ResolveShape | toonz/sources/toonzlib/thirdparty.cpp:64-67 | an empty directory, or one starting with `.`, becomes `appDir + "/" + dir`; any other directory is unchanged; the configured directory is always the tail of the result |
| Paths.ResolveIdempotent | toonz/sources/toonzlib/thirdparty.cpp:210-213 | with an absolute application directory, resolving an already resolved directory changes nothing |
| Paths.Find | toonz/sources/toonzlib/thirdparty.cpp:63-72 | a helper is found in a directory iff every executable it requires exists under the resolved directory |
| Paths.FFmpegNeedsBoth | toonz/sources/toonzlib/thirdparty.cpp:69-71 | removing either `ffmpeg` or `ffprobe` makes the FFmpeg probe fail; having both makes it succeed |
| Paths.RhubarbNeedsOne | toonz/sources/toonzlib/thirdparty.cpp:207-217 | Rhubarb is found iff its single executable exists under the resolved directory |
| Paths.FindMonotone | toonz/sources/toonzlib/thirdparty.cpp:69-71 | adding files never makes a found helper disappear |
| Paths.FirstValid | toonz/sources/toonzlib/thirdparty.cpp:85-96 | returns the index of the first candidate where the helper is found, and none iff no candidate holds it |
| Paths.Autodetect | toonz/sources/toonzlib/thirdparty.cpp:83-100 | the result is `""` or a directory where the helper is found; a valid configured directory is returned unchanged |
| Paths.AutodetectFirstMatch | toonz/sources/toonzlib/thirdparty.cpp:84-99 | a non-empty result is a candidate, and every candidate before it in priority order is invalid |
| Paths.AutodetectEmptyIff | toonz/sources/toonzlib/thirdparty.cpp:228-244 | the result is `""` iff no candidate is valid or the configured directory is a valid `""` |
| Paths.WindowsSkipsSystemDirs | toonz/sources/toonzlib/thirdparty.cpp:93-97 | on Windows builds `/usr/local/bin`, `/usr/bin` and `/bin` are never returned unless configured |
| Preferences.SetString | toonz/sources/toonzlib/thirdparty.cpp:110-113 | change-guarded string write: an equal value leaves the store and write log untouched; otherwise exactly one write is logged; the key then holds the value and every other key is unchanged |
| Preferences.SetInt | toonz/sources/toonzlib/thirdparty.cpp:123-126 | the same change guard for integer preferences |
| ThirdParty.SetFFmpegDir | toonz/sources/toonzlib/thirdparty.cpp:110-113 | afterwards the FFmpeg directory is the argument; an equal value issues no write; a different one issues exactly one write to that key and leaves all other keys alone |
| ThirdParty.SetFFmpegTimeout | toonz/sources/toonzlib/thirdparty.cpp:123-126 | the same for the FFmpeg timeout |
| ThirdParty.SetRhubarbDir | toonz/sources/toonzlib/thirdparty.cpp:264-267 | the same for the Rhubarb directory |
| ThirdParty.SetRhubarbTimeout | toonz/sources/toonzlib/thirdparty.cpp:277-280 | the same for the Rhubarb timeout |
| ThirdParty.SetDirTwiceWritesOnce | toonz/sources/toonzlib/thirdparty.cpp:264-267 | setting the same directory twice persists it once |
| ThirdParty.CheckFFmpeg | toonz/sources/toonzlib/thirdparty.cpp:76-79 | true iff `ffmpeg` and `ffprobe` both exist under the configured FFmpeg directory, resolved |
| ThirdParty.CheckRhubarb | toonz/sources/toonzlib/thirdparty.cpp:221-224 | true iff `rhubarb` exists under the configured Rhubarb directory, resolved |
| ThirdParty.AutodetectFFmpeg | toonz/sources/toonzlib/thirdparty.cpp:83-100 | the result is `""` or a valid directory: the configured one, one of `.`, `./ffmpeg`, `./ffmpeg/bin`, `./FFmpeg`, `./FFmpeg/bin`, or, off Windows only, a system directory |
| ThirdParty.AutodetectRhubarb | toonz/sources/toonzlib/thirdparty.cpp:228-244 | the same over `.`, `./rhubarb`, `./rhubarb/bin`, `./Rhubarb-Lip-Sync` |
| ThirdParty.Adopt | toonz/sources/toonzlib/thirdparty.cpp:21-24 | a found directory is written only when the configured one is invalid and the found one is non-empty; at most one write, never of `""` |
| ThirdParty.Initialize | toonz/sources/toonzlib/thirdparty.cpp:19-31 | a helper that passes its check keeps its directory; otherwise it gets a non-empty autodetected directory, or keeps its own when none is found; no key but the two paths changes |
| ThirdParty.InitializeWritesOnlyFoundDirs | toonz/sources/toonzlib/thirdparty.cpp:19-31 | start-up only appends to the write log, at most two writes, each of a non-empty string to a path key |
| ThirdParty.AdoptWrites | toonz/sources/toonzlib/thirdparty.cpp:21-24 | one helper's step appends exactly one write of the autodetected directory when the check fails and something is found, and nothing otherwise |
| ThirdParty.InitializeWriteLog | toonz/sources/toonzlib/thirdparty.cpp:19-31 | the write log after start-up is the old log, then FFmpeg's write if any, then Rhubarb's |
| ThirdParty.InitializeWritesOnlyAdopted | toonz/sources/toonzlib/thirdparty.cpp:19-31 | a helper's key is written by start-up iff its check fails and autodetection finds a directory, and then with that directory; a helper that passes its check gets no write |
| ThirdParty.InitializeConfiguresIffFound | toonz/sources/toonzlib/thirdparty.cpp:19-31 | after start-up a helper's check passes iff some candidate, configured or fallback, holds it |
| ThirdParty.InitializeIdempotent | toonz/sources/toonzlib/thirdparty.cpp:19-31 | a second start-up changes nothing and writes nothing |
| ThirdParty.InitializeIndependent | toonz/sources/toonzlib/thirdparty.cpp:20-30 | the directory stored for each helper depends only on that helper's own configured directory |
| ThirdParty.ScenarioAutodetect | toonz/sources/toonzlib/thirdparty.cpp:94-95 | with nothing configured and FFmpeg only in `/usr/bin`, autodetection returns `/usr/bin` |
| ThirdParty.UsrBinScenario | toonz/sources/toonzlib/thirdparty.cpp:21-23 | in that case start-up persists `/usr/bin` with exactly one write |
| Launcher.StartAsWritten | toonz/sources/toonzlib/thirdparty.cpp:130-136 | the launch as written; it needs a non-empty configured directory and then agrees with the corrected launch |
| Launcher.EmptyDirPassesCheckButCannotStart | toonz/sources/toonzlib/thirdparty.cpp:140-146 | an empty FFmpeg directory can pass `checkFFmpeg` while the as-written launch cannot serve it |
| Launcher.Start | toonz/sources/toonzlib/thirdparty.cpp:248-254 | arguments are passed through unchanged, and after a successful check the launched program is an existing file |
| Launcher.RunFFmpeg | toonz/sources/toonzlib/thirdparty.cpp:130-136 | the corrected launch of the FFmpeg encoder from the configured directory read at call time: arguments pass through, the program exists after a passing check, and for a non-empty directory it is the source's launch exactly |
| Launcher.RunFFprobe | toonz/sources/toonzlib/thirdparty.cpp:140-146 | the corrected launch of the prober, with the same three properties |
| Launcher.RunRhubarb | toonz/sources/toonzlib/thirdparty.cpp:248-254 | the corrected launch of Rhubarb, with the same three properties |
| Launcher.SampleFormat | toonz/sources/toonzlib/thirdparty.cpp:157-172 | a sample format exists exactly for 8, 16, 24 and 32 bits per sample |
| Launcher.SampleFormatRoundTrip | toonz/sources/toonzlib/thirdparty.cpp:158-169 | 8/16/24/32 correspond one to one with `u8`/`s16le`/`s24le`/`f32le` |
| Launcher.AudioArgsRoundTrip | toonz/sources/toonzlib/thirdparty.cpp:152-177 | the transcode argument vector determines the request: source, destination, sample rate, bit depth and channel count are read back exactly |
| Launcher.ParseAudioArgsSound | toonz/sources/toonzlib/thirdparty.cpp:173-177 | every vector the reader accepts is the argument vector of the request it reads |
| Launcher.RunFFmpegAudio | toonz/sources/toonzlib/thirdparty.cpp:150-180 | for bpp in {8,16,24,32} FFmpeg is started with exactly `-y -i src -f fmt -ac channels -ar rate dst`; for any other bpp nothing is started |
| Decimal.NatToString | toonz/sources/toonzlib/thirdparty.cpp:174-176 | the decimal digits of a natural number: non-empty, digits only, no leading zero |
| Decimal.IntToString | toonz/sources/toonzlib/thirdparty.cpp:174 | the rendering starts with `-` exactly for negative numbers |
| Decimal.ParseIntToString | toonz/sources/toonzlib/thirdparty.cpp:176 | parsing the rendering gives back the number |
| Decimal.IntToStringInjective | toonz/sources/toonzlib/thirdparty.cpp:174-176 | different numbers render differently |

## Left out

- `waitAsyncProcess` (thirdparty.cpp:284-302) is left out. It is a Qt event loop that races a timer against the process's `errorOccurred` and `finished` signals, and a sequential model cannot capture that. Note that it passes `timeout` straight to `QTimer::start`, which counts in milliseconds.
- `readFFmpegAudio` is left out. It does blocking process I/O: it waits for start, waits up to 30000 ms for the process to finish, and reads standard output.
- `getFFmpegVideoSupported` and `getFFmpegAudioSupported` are left out. They append constant extension lists, and there is nothing to prove about them beyond the literals.
- The filesystem probe `TSystem::doesExistFileOrLevel` is not modelled; it becomes membership in a set of path strings. Path normalisation is not modelled either, so `/a//b` and `/a/./b` are different paths here.
- `QCoreApplication::applicationDirPath` is not modelled; it becomes the `appDir` field of the host.
- The `Preferences` singleton is not modelled beyond a value map and a write log; its change signals are left out.
- `QProcess` is not modelled beyond the `(program, arguments)` pair passed to `start`.
- The getters `GetFFmpegDir`, `GetFFmpegTimeout`, `GetRhubarbDir` and `GetRhubarbTimeout` have no contract of their own. They only read one key, and the setter contracts state what they return after a write.
- Launcher.RunFFmpeg: models the corrected launch. For an empty FFmpeg directory it starts `ffmpeg` from the application directory, where the source reads the first character of the empty string; see "## Findings".
- Launcher.RunFFprobe: models the corrected launch. It differs from the source in the same way for an empty FFmpeg directory.
- Launcher.RunRhubarb: models the corrected launch. It differs from the source in the same way for an empty Rhubarb directory.
- Launcher.RunFFmpegAudio: starts FFmpeg through the corrected launch. It therefore differs from the source in the same way for an empty FFmpeg directory.
- Launcher.StartAsWritten: does not model reading `dir.at(0)` of an empty directory; it requires a non-empty directory instead, because that read is outside what the Qt string API defines.

## Findings

| source | as written | input that shows it | evidently intended | confidence | as-written member | corrected member |
|---|---|---|---|---|---|---|
| toonz/sources/toonzlib/thirdparty.cpp:130-136 | `runFFmpeg`, and likewise `runFFprobe` (140-146) and `runRhubarb` (248-254), reads `dir.at(0)` of the configured directory without checking that it is non-empty. `findFFmpeg` and `findRhubarb` treat the empty directory as the application directory | FFmpeg directory `""` with `ffmpeg` and `ffprobe` in the application directory: `checkFFmpeg` passes, so `initialize` keeps `""`, and `runFFmpeg` then reads the first character of an empty string | resolve the directory with the same rule as the probes, so that `""` launches from the application directory | medium; not executed | Launcher.StartAsWritten, shown by Launcher.EmptyDirPassesCheckButCannotStart | Launcher.Start, whose contract proves that after a passing check the launched program exists |
