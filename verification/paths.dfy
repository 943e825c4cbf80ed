/** Where the helpers are looked for: resolution of a configured directory
    against the application directory, the existence probes for each helper's
    executables, and the ordered autodetection over candidate directories. */
module Paths {
  import opened Wrappers

  datatype Tool = FFmpeg | Rhubarb

  /** What the probes observe: the directory of the running application, the
      platform the program was built for, and the paths of existing files. */
  datatype Host = Host(appDir: string, isWindows: bool, files: set<string>)

  /** A directory that is empty or starts with `.` is relative to the
      application directory. */
  predicate IsRelative(dir: string) {
    |dir| == 0 || dir[0] == '.'
  }

  /** The directory a configured `dir` denotes. */
  function Resolve(appDir: string, dir: string): string {
    if IsRelative(dir) then appDir + "/" + dir else dir
  }

  /** Resolution keeps the configured directory as the tail of the result;
      it prepends `appDir` and a `/` exactly when the directory is relative,
      and otherwise changes nothing. */
  lemma ResolveShape(appDir: string, dir: string)
    ensures var r := Resolve(appDir, dir);
            && |dir| <= |r| && r[|r| - |dir|..] == dir
            && (IsRelative(dir) <==> |r| > |dir|)
            && (IsRelative(dir) ==> |r| == |appDir| + 1 + |dir| && r[..|appDir| + 1] == appDir + "/")
            && (!IsRelative(dir) ==> r == dir)
  {
    var r := Resolve(appDir, dir);
    if IsRelative(dir) {
      assert r == (appDir + "/") + dir;
    }
  }

  /** Resolving twice is resolving once when the application directory is
      itself not relative (as an absolute directory never is). */
  lemma ResolveIdempotent(appDir: string, dir: string)
    requires !IsRelative(appDir)
    ensures Resolve(appDir, Resolve(appDir, dir)) == Resolve(appDir, dir)
  {
    if IsRelative(dir) {
      var r := Resolve(appDir, dir);
      assert r[0] == appDir[0];
    }
  }

  function ExeSuffix(isWindows: bool): string {
    if isWindows then ".exe" else ""
  }

  function FFmpegExe(isWindows: bool): string {
    "/ffmpeg" + ExeSuffix(isWindows)
  }

  function FFprobeExe(isWindows: bool): string {
    "/ffprobe" + ExeSuffix(isWindows)
  }

  function RhubarbExe(isWindows: bool): string {
    "/rhubarb" + ExeSuffix(isWindows)
  }

  /** The executables that must all be present for a helper to count as
      installed in a directory: FFmpeg needs its encoder and its prober. */
  function RequiredExes(tool: Tool, isWindows: bool): seq<string> {
    match tool
    case FFmpeg => [FFmpegExe(isWindows), FFprobeExe(isWindows)]
    case Rhubarb => [RhubarbExe(isWindows)]
  }

  /** `findFFmpeg` / `findRhubarb`: the helper is installed under `dir` iff
      every required executable exists in the resolved directory. */
  function Find(h: Host, tool: Tool, dir: string): (r: bool)
    ensures r <==> forall e :: e in RequiredExes(tool, h.isWindows) ==> Resolve(h.appDir, dir) + e in h.files
  {
    var base := Resolve(h.appDir, dir);
    match tool
    case FFmpeg => base + FFmpegExe(h.isWindows) in h.files && base + FFprobeExe(h.isWindows) in h.files
    case Rhubarb => base + RhubarbExe(h.isWindows) in h.files
  }

  /** FFmpeg is found only with both executables: removing either one from
      an installation makes the probe fail. */
  lemma FFmpegNeedsBoth(h: Host, dir: string)
    ensures var base := Resolve(h.appDir, dir);
            && !Find(h.(files := h.files - {base + FFmpegExe(h.isWindows)}), FFmpeg, dir)
            && !Find(h.(files := h.files - {base + FFprobeExe(h.isWindows)}), FFmpeg, dir)
            && Find(h.(files := h.files + {base + FFmpegExe(h.isWindows), base + FFprobeExe(h.isWindows)}), FFmpeg, dir)
  {
  }

  /** Rhubarb is found exactly when its single executable exists. */
  lemma RhubarbNeedsOne(h: Host, dir: string)
    ensures Find(h, Rhubarb, dir) <==> Resolve(h.appDir, dir) + RhubarbExe(h.isWindows) in h.files
  {
  }

  /** Installing more files never makes a helper disappear. */
  lemma FindMonotone(h: Host, more: set<string>, tool: Tool, dir: string)
    requires h.files <= more
    ensures Find(h, tool, dir) ==> Find(h.(files := more), tool, dir)
  {
  }

  /** The bundled locations relative to the application directory, in the
      order they are tried. */
  function Bundled(tool: Tool): (r: seq<string>)
    ensures forall i :: 0 <= i < |r| ==> |r[i]| > 0 && IsRelative(r[i])
  {
    match tool
    case FFmpeg => [".", "./ffmpeg", "./ffmpeg/bin", "./FFmpeg", "./FFmpeg/bin"]
    case Rhubarb => [".", "./rhubarb", "./rhubarb/bin", "./Rhubarb-Lip-Sync"]
  }

  /** The system directories, tried last and only on non-Windows builds. */
  function SystemDirs(): (r: seq<string>)
    ensures forall i :: 0 <= i < |r| ==> !IsRelative(r[i])
  {
    ["/usr/local/bin", "/usr/bin", "/bin"]
  }

  function Fallbacks(tool: Tool, isWindows: bool): (r: seq<string>)
    ensures forall i :: 0 <= i < |r| ==> |r[i]| > 0
  {
    Bundled(tool) + (if isWindows then [] else SystemDirs())
  }

  /** The full priority list: the configured directory, then the fallbacks. */
  function Candidates(tool: Tool, isWindows: bool, configured: string): seq<string> {
    [configured] + Fallbacks(tool, isWindows)
  }

  /** Index of the first candidate where the helper is found, if any. */
  function FirstValid(h: Host, tool: Tool, cands: seq<string>): (r: Option<nat>)
    ensures r.None? <==> forall i :: 0 <= i < |cands| ==> !Find(h, tool, cands[i])
    ensures r.Some? ==> r.value < |cands| && Find(h, tool, cands[r.value])
    ensures r.Some? ==> forall j :: 0 <= j < r.value ==> !Find(h, tool, cands[j])
    decreases |cands|
  {
    if |cands| == 0 then None
    else if Find(h, tool, cands[0]) then Some(0)
    else match FirstValid(h, tool, cands[1..])
      case None => None
      case Some(i) => Some(i + 1)
  }

  /** `autodetectFFmpeg` / `autodetectRhubarb`: the first candidate, in
      priority order, where the helper is found, or "" when there is none. */
  function Autodetect(h: Host, tool: Tool, configured: string): (r: string)
    ensures r == "" || Find(h, tool, r)
    ensures Find(h, tool, configured) ==> r == configured
  {
    var cands := Candidates(tool, h.isWindows, configured);
    match FirstValid(h, tool, cands)
    case None => ""
    case Some(i) => cands[i]
  }

  /** A non-empty result is a candidate that comes before every other
      candidate where the helper is found. */
  lemma AutodetectFirstMatch(h: Host, tool: Tool, configured: string)
    ensures var r := Autodetect(h, tool, configured);
            var cands := Candidates(tool, h.isWindows, configured);
            r != "" ==> exists i :: 0 <= i < |cands| && cands[i] == r && forall j :: 0 <= j < i ==> !Find(h, tool, cands[j])
  {
    var cands := Candidates(tool, h.isWindows, configured);
    match FirstValid(h, tool, cands)
    case None =>
    case Some(i) =>
  }

  /** "" means nothing was found, with one exception: "" is also a legal
      configured directory (the application directory itself), and is
      returned as such when the helper is found there. */
  lemma AutodetectEmptyIff(h: Host, tool: Tool, configured: string)
    ensures var cands := Candidates(tool, h.isWindows, configured);
            Autodetect(h, tool, configured) == "" <==>
              || (configured == "" && Find(h, tool, configured))
              || forall i :: 0 <= i < |cands| ==> !Find(h, tool, cands[i])
  {
    var cands := Candidates(tool, h.isWindows, configured);
    match FirstValid(h, tool, cands)
    case None =>
    case Some(i) =>
      assert i > 0 ==> cands[i] == Fallbacks(tool, h.isWindows)[i - 1];
  }

  /** On a Windows build the system directories are never returned, unless
      one of them is the configured directory itself. */
  lemma {:induction false} WindowsSkipsSystemDirs(h: Host, tool: Tool, configured: string)
    requires h.isWindows
    ensures var r := Autodetect(h, tool, configured);
            r == configured || forall i :: 0 <= i < |SystemDirs()| ==> r != SystemDirs()[i]
  {
    var r := Autodetect(h, tool, configured);
    var cands := Candidates(tool, h.isWindows, configured);
    AutodetectFirstMatch(h, tool, configured);
    if r != "" && r != configured {
      var k :| 0 <= k < |cands| && cands[k] == r && forall j :: 0 <= j < k ==> !Find(h, tool, cands[j]);
      assert k > 0;
      assert Fallbacks(tool, h.isWindows) == Bundled(tool);
      assert r == Bundled(tool)[k - 1];
      assert IsRelative(r);
    }
  }
}
