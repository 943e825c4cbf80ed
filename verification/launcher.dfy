/** Starting the helpers: which program is launched with which arguments.
    A launch is recorded as the `(program, arguments)` pair handed to
    `QProcess::start`; the process itself is not modelled. */
module Launcher {
  import opened Wrappers
  import opened Decimal
  import opened Preferences
  import opened Paths
  import opened ThirdParty

  datatype Launch = Launch(program: string, args: seq<string>)

  /** The three executables that are started. */
  datatype Binary = FFmpegBin | FFprobeBin | RhubarbBin

  function ToolOf(b: Binary): Tool {
    match b
    case FFmpegBin => FFmpeg
    case FFprobeBin => FFmpeg
    case RhubarbBin => Rhubarb
  }

  function BinaryExe(b: Binary, isWindows: bool): string {
    match b
    case FFmpegBin => FFmpegExe(isWindows)
    case FFprobeBin => FFprobeExe(isWindows)
    case RhubarbBin => RhubarbExe(isWindows)
  }

  /** The launch as the source performs it: the configured directory is read
      at call time and anchored at the application directory only when its
      first character is `.`. Reading that first character needs a non-empty
      directory, which is why the empty directory is excluded here even
      though the probes accept it. */
  function StartAsWritten(h: Host, p: Prefs, b: Binary, args: seq<string>): (r: Launch)
    requires GetDir(p, ToolOf(b)) != ""
    ensures r == Start(h, p, b, args)
  {
    var dir := GetDir(p, ToolOf(b));
    var base := if dir[0] == '.' then h.appDir + "/" + dir else dir;
    Launch(base + BinaryExe(b, h.isWindows), args)
  }

  /** The launch with the directory resolved exactly as the probes resolve
      it, so that the empty directory, too, denotes the application
      directory. Whatever passes the check is what gets launched: after a
      successful check, the program started is a file that exists. */
  function Start(h: Host, p: Prefs, b: Binary, args: seq<string>): (r: Launch)
    ensures r.args == args
    ensures Check(h, p, ToolOf(b)) ==> r.program in h.files
  {
    Launch(Resolve(h.appDir, GetDir(p, ToolOf(b))) + BinaryExe(b, h.isWindows), args)
  }

  /** The as-written launch cannot serve a configuration the check accepts:
      an empty FFmpeg directory with both executables in the application
      directory passes `checkFFmpeg`, but `runFFmpeg` would read the first
      character of the empty string. */
  lemma EmptyDirPassesCheckButCannotStart()
    ensures var h := Host("/opt/app", false, {"/opt/app//ffmpeg", "/opt/app//ffprobe"});
            var p := Prefs(map[FFmpegPath := Str("")], []);
            CheckFFmpeg(h, p) && GetDir(p, ToolOf(FFmpegBin)) == ""
  {
    var h := Host("/opt/app", false, {"/opt/app//ffmpeg", "/opt/app//ffprobe"});
    var p := Prefs(map[FFmpegPath := Str("")], []);
    assert Resolve(h.appDir, "") + FFmpegExe(false) == "/opt/app//ffmpeg";
    assert Resolve(h.appDir, "") + FFprobeExe(false) == "/opt/app//ffprobe";
  }

  /** `runFFmpeg`: starts the encoder from the configured directory. */
  function RunFFmpeg(h: Host, p: Prefs, args: seq<string>): (r: Launch)
    ensures r.args == args
    ensures CheckFFmpeg(h, p) ==> r.program in h.files
    ensures GetFFmpegDir(p) != "" ==> r == StartAsWritten(h, p, FFmpegBin, args)
  {
    Start(h, p, FFmpegBin, args)
  }

  /** `runFFprobe`: starts the prober from the same directory. */
  function RunFFprobe(h: Host, p: Prefs, args: seq<string>): (r: Launch)
    ensures r.args == args
    ensures CheckFFmpeg(h, p) ==> r.program in h.files
    ensures GetFFmpegDir(p) != "" ==> r == StartAsWritten(h, p, FFprobeBin, args)
  {
    Start(h, p, FFprobeBin, args)
  }

  /** `runRhubarb`: starts Rhubarb from its configured directory. */
  function RunRhubarb(h: Host, p: Prefs, args: seq<string>): (r: Launch)
    ensures r.args == args
    ensures CheckRhubarb(h, p) ==> r.program in h.files
    ensures GetRhubarbDir(p) != "" ==> r == StartAsWritten(h, p, RhubarbBin, args)
  {
    Start(h, p, RhubarbBin, args)
  }

  /** The FFmpeg raw sample format for a bit depth: unsigned 8-bit, signed
      little-endian 16- and 24-bit, little-endian float for 32; no other
      depth has one. */
  function SampleFormat(bpp: int): (r: Option<string>)
    ensures r.Some? <==> bpp == 8 || bpp == 16 || bpp == 24 || bpp == 32
  {
    if bpp == 8 then Some("u8")
    else if bpp == 16 then Some("s16le")
    else if bpp == 24 then Some("s24le")
    else if bpp == 32 then Some("f32le")
    else None
  }

  /** The bit depth a sample format name stands for. */
  function BitsPerSample(fmt: string): Option<int> {
    if fmt == "u8" then Some(8)
    else if fmt == "s16le" then Some(16)
    else if fmt == "s24le" then Some(24)
    else if fmt == "f32le" then Some(32)
    else None
  }

  /** Bit depths and format names correspond one to one. */
  lemma SampleFormatRoundTrip(bpp: int, fmt: string)
    ensures SampleFormat(bpp) == Some(fmt) <==> BitsPerSample(fmt) == Some(bpp)
  {
  }

  /** What an audio transcode is asked for. */
  datatype AudioRequest = AudioRequest(src: string, dst: string, sampleRate: int, bpp: int, channels: int)

  /** The argument vector for decoding `src` into raw samples written to
      `dst`, for a bit depth that has a sample format. */
  function AudioArgs(req: AudioRequest): seq<string>
    requires SampleFormat(req.bpp).Some?
  {
    ["-y", "-i", req.src, "-f", SampleFormat(req.bpp).value,
     "-ac", IntToString(req.channels), "-ar", IntToString(req.sampleRate), req.dst]
  }

  /** An integer argument exactly as `QString::number` would write it. */
  predicate IsCanonicalInt(s: string) {
    IntToString(ParseInt(s)) == s
  }

  /** Reads an audio transcode back from an argument vector; the partner of
      `AudioArgs`. */
  function ParseAudioArgs(args: seq<string>): Option<AudioRequest> {
    if |args| == 10 && args[0] == "-y" && args[1] == "-i" && args[3] == "-f"
       && args[5] == "-ac" && args[7] == "-ar"
       && BitsPerSample(args[4]).Some? && IsCanonicalInt(args[6]) && IsCanonicalInt(args[8])
    then Some(AudioRequest(args[2], args[9], ParseInt(args[8]), BitsPerSample(args[4]).value, ParseInt(args[6])))
    else None
  }

  /** The argument vector determines the request: parsing recovers it. */
  lemma AudioArgsRoundTrip(req: AudioRequest)
    requires SampleFormat(req.bpp).Some?
    ensures ParseAudioArgs(AudioArgs(req)) == Some(req)
  {
    var args := AudioArgs(req);
    ParseIntToString(req.channels);
    ParseIntToString(req.sampleRate);
    SampleFormatRoundTrip(req.bpp, args[4]);
  }

  /** Every vector the parser accepts is the vector of the request it reads. */
  lemma ParseAudioArgsSound(args: seq<string>)
    requires ParseAudioArgs(args).Some?
    ensures SampleFormat(ParseAudioArgs(args).value.bpp).Some?
    ensures AudioArgs(ParseAudioArgs(args).value) == args
  {
    var req := ParseAudioArgs(args).value;
    SampleFormatRoundTrip(req.bpp, args[4]);
    assert AudioArgs(req)[6] == args[6];
    assert AudioArgs(req)[8] == args[8];
  }

  /** `runFFmpegAudio`: for a supported bit depth, FFmpeg is started with
      the transcode arguments; for any other depth nothing is started. */
  function RunFFmpegAudio(h: Host, p: Prefs, srcPath: string, dstPath: string,
                          samplerate: int, bpp: int, channels: int): (r: Option<Launch>)
    ensures r.None? <==> !(bpp == 8 || bpp == 16 || bpp == 24 || bpp == 32)
    ensures r.Some? ==> r.value.program == RunFFmpeg(h, p, []).program
    ensures r.Some? ==> ParseAudioArgs(r.value.args) == Some(AudioRequest(srcPath, dstPath, samplerate, bpp, channels))
    ensures r.Some? ==> r.value.args == ["-y", "-i", srcPath, "-f", SampleFormat(bpp).value,
                                         "-ac", IntToString(channels), "-ar", IntToString(samplerate), dstPath]
  {
    match SampleFormat(bpp)
    case None => None
    case Some(_) =>
      var req := AudioRequest(srcPath, dstPath, samplerate, bpp, channels);
      AudioArgsRoundTrip(req);
      Some(RunFFmpeg(h, p, AudioArgs(req)))
  }
}
