/** The configuration side of the helper integration: the persisted
    directory and timeout of each helper, the probes of the configured
    directory, autodetection seeded with it, and the start-up routine that
    stores an autodetected directory when the configured one is invalid. */
module ThirdParty {
  import opened Preferences
  import opened Paths

  function GetFFmpegDir(p: Prefs): string {
    GetString(p, FFmpegPath)
  }

  function GetRhubarbDir(p: Prefs): string {
    GetString(p, RhubarbPath)
  }

  function GetFFmpegTimeout(p: Prefs): int {
    GetInt(p, FFmpegTimeout)
  }

  function GetRhubarbTimeout(p: Prefs): int {
    GetInt(p, RhubarbTimeout)
  }

  /** Stores `dir` as the FFmpeg directory, writing only when it differs from
      the stored one. */
  function SetFFmpegDir(p: Prefs, dir: string): (r: Prefs)
    ensures GetFFmpegDir(r) == dir
    ensures GetFFmpegDir(p) == dir ==> r == p
    ensures GetFFmpegDir(p) != dir ==> WrittenOnce(p, r, FFmpegPath, Str(dir))
  {
    SetString(p, FFmpegPath, dir)
  }

  function SetFFmpegTimeout(p: Prefs, secs: int): (r: Prefs)
    ensures GetFFmpegTimeout(r) == secs
    ensures GetFFmpegTimeout(p) == secs ==> r == p
    ensures GetFFmpegTimeout(p) != secs ==> WrittenOnce(p, r, FFmpegTimeout, Int(secs))
  {
    SetInt(p, FFmpegTimeout, secs)
  }

  function SetRhubarbDir(p: Prefs, dir: string): (r: Prefs)
    ensures GetRhubarbDir(r) == dir
    ensures GetRhubarbDir(p) == dir ==> r == p
    ensures GetRhubarbDir(p) != dir ==> WrittenOnce(p, r, RhubarbPath, Str(dir))
  {
    SetString(p, RhubarbPath, dir)
  }

  function SetRhubarbTimeout(p: Prefs, secs: int): (r: Prefs)
    ensures GetRhubarbTimeout(r) == secs
    ensures GetRhubarbTimeout(p) == secs ==> r == p
    ensures GetRhubarbTimeout(p) != secs ==> WrittenOnce(p, r, RhubarbTimeout, Int(secs))
  {
    SetInt(p, RhubarbTimeout, secs)
  }

  /** Setting the same directory twice persists it once: the second call
      issues no write. */
  lemma SetDirTwiceWritesOnce(p: Prefs, dir: string)
    ensures SetFFmpegDir(SetFFmpegDir(p, dir), dir) == SetFFmpegDir(p, dir)
    ensures SetRhubarbDir(SetRhubarbDir(p, dir), dir) == SetRhubarbDir(p, dir)
    ensures |SetFFmpegDir(p, dir).writes| <= |p.writes| + 1
    ensures |SetRhubarbDir(p, dir).writes| <= |p.writes| + 1
  {
  }

  function PathKey(tool: Tool): Key {
    match tool
    case FFmpeg => FFmpegPath
    case Rhubarb => RhubarbPath
  }

  function GetDir(p: Prefs, tool: Tool): string {
    GetString(p, PathKey(tool))
  }

  /** `checkFFmpeg`: both FFmpeg executables exist under the configured
      directory, resolved against the application directory. */
  function CheckFFmpeg(h: Host, p: Prefs): (r: bool)
    ensures r <==> var base := Resolve(h.appDir, GetFFmpegDir(p));
                   base + FFmpegExe(h.isWindows) in h.files && base + FFprobeExe(h.isWindows) in h.files
  {
    Check(h, p, FFmpeg)
  }

  /** `checkRhubarb`: the Rhubarb executable exists under the configured
      directory. */
  function CheckRhubarb(h: Host, p: Prefs): (r: bool)
    ensures r <==> Resolve(h.appDir, GetRhubarbDir(p)) + RhubarbExe(h.isWindows) in h.files
  {
    Check(h, p, Rhubarb)
  }

  /** Whether the helper is found in its configured directory. */
  function Check(h: Host, p: Prefs, tool: Tool): bool {
    Find(h, tool, GetDir(p, tool))
  }

  /** `autodetectFFmpeg`: the configured directory if FFmpeg is found there,
      else the first bundled or (off Windows) system directory where it is
      found, else "". */
  function AutodetectFFmpeg(h: Host, p: Prefs): (r: string)
    ensures r == "" || Find(h, FFmpeg, r)
    ensures CheckFFmpeg(h, p) ==> r == GetFFmpegDir(p)
    ensures r != "" ==> || r == GetFFmpegDir(p)
                        || r in [".", "./ffmpeg", "./ffmpeg/bin", "./FFmpeg", "./FFmpeg/bin"]
                        || (!h.isWindows && r in ["/usr/local/bin", "/usr/bin", "/bin"])
  {
    AutodetectTool(h, p, FFmpeg)
  }

  /** `autodetectRhubarb`: as for FFmpeg, over Rhubarb's own locations. */
  function AutodetectRhubarb(h: Host, p: Prefs): (r: string)
    ensures r == "" || Find(h, Rhubarb, r)
    ensures CheckRhubarb(h, p) ==> r == GetRhubarbDir(p)
    ensures r != "" ==> || r == GetRhubarbDir(p)
                        || r in [".", "./rhubarb", "./rhubarb/bin", "./Rhubarb-Lip-Sync"]
                        || (!h.isWindows && r in ["/usr/local/bin", "/usr/bin", "/bin"])
  {
    AutodetectTool(h, p, Rhubarb)
  }

  /** Autodetection seeded with the helper's configured directory. */
  function AutodetectTool(h: Host, p: Prefs, tool: Tool): string {
    Autodetect(h, tool, GetDir(p, tool))
  }

  /** One helper's half of start-up: `found` is stored as the helper's
      directory when the configured one is not `valid` and `found` is not
      empty; otherwise the store is left alone. */
  function Adopt(p: Prefs, tool: Tool, valid: bool, found: string): (r: Prefs)
    ensures valid || found == "" ==> r == p
    ensures !valid && found != "" ==> GetDir(r, tool) == found
    ensures !valid && found != "" && GetDir(p, tool) != found ==> WrittenOnce(p, r, PathKey(tool), Str(found))
    ensures forall k :: k != PathKey(tool) ==> SameOn(p.values, r.values, k)
    ensures forall t :: t != tool ==> GetDir(r, t) == GetDir(p, t)
    ensures r.writes == p.writes || (found != "" && r.writes == p.writes + [Write(PathKey(tool), Str(found))])
  {
    if !valid && found != "" then SetString(p, PathKey(tool), found) else p
  }

  /** The start-up routine, FFmpeg first and then Rhubarb: a helper whose
      configured directory passes its check keeps it; otherwise it gets the
      autodetected directory when there is one, and keeps its own when
      autodetection finds nothing. Only the two path keys can change. */
  function Initialize(h: Host, p: Prefs): (r: Prefs)
    ensures forall tool :: Check(h, p, tool) ==> GetDir(r, tool) == GetDir(p, tool)
    ensures forall tool :: !Check(h, p, tool) && AutodetectTool(h, p, tool) == "" ==> GetDir(r, tool) == GetDir(p, tool)
    ensures forall tool :: !Check(h, p, tool) && AutodetectTool(h, p, tool) != "" ==> GetDir(r, tool) == AutodetectTool(h, p, tool)
    ensures forall k :: k != FFmpegPath && k != RhubarbPath ==> SameOn(p.values, r.values, k)
    ensures Check(h, p, FFmpeg) && Check(h, p, Rhubarb) ==> r == p
  {
    var p1 := Adopt(p, FFmpeg, Check(h, p, FFmpeg), AutodetectTool(h, p, FFmpeg));
    assert GetDir(p1, Rhubarb) == GetDir(p, Rhubarb);
    Adopt(p1, Rhubarb, Check(h, p1, Rhubarb), AutodetectTool(h, p1, Rhubarb))
  }

  /** Start-up never writes an empty directory and writes at most once per
      helper, always to a helper's path key. */
  lemma InitializeWritesOnlyFoundDirs(h: Host, p: Prefs)
    ensures var r := Initialize(h, p);
            && |p.writes| <= |r.writes| <= |p.writes| + 2 && r.writes[..|p.writes|] == p.writes
            && forall i :: |p.writes| <= i < |r.writes| ==>
                 && (r.writes[i].key == FFmpegPath || r.writes[i].key == RhubarbPath)
                 && r.writes[i].value.Str? && r.writes[i].value.s != ""
  {
    var found1 := AutodetectTool(h, p, FFmpeg);
    var p1 := Adopt(p, FFmpeg, Check(h, p, FFmpeg), found1);
    var found2 := AutodetectTool(h, p1, Rhubarb);
    var r := Adopt(p1, Rhubarb, Check(h, p1, Rhubarb), found2);
    assert r == Initialize(h, p);
    var w1 := p1.writes[|p.writes|..];
    var w2 := r.writes[|p1.writes|..];
    assert p1.writes == p.writes + w1;
    assert r.writes == p1.writes + w2;
    assert w1 == [] || w1 == [Write(FFmpegPath, Str(found1))];
    assert w2 == [] || w2 == [Write(RhubarbPath, Str(found2))];
  }

  /** The write start-up issues for one helper: its autodetected directory
      when the configured one fails the check and something was found,
      otherwise none. */
  function AdoptedWrite(h: Host, p: Prefs, tool: Tool): seq<Write> {
    var found := AutodetectTool(h, p, tool);
    if !Check(h, p, tool) && found != "" then [Write(PathKey(tool), Str(found))] else []
  }

  /** One helper's half of start-up appends exactly that helper's write. */
  lemma AdoptWrites(h: Host, p: Prefs, tool: Tool)
    ensures Adopt(p, tool, Check(h, p, tool), AutodetectTool(h, p, tool)).writes == p.writes + AdoptedWrite(h, p, tool)
  {
    var found := AutodetectTool(h, p, tool);
    if !Check(h, p, tool) && found != "" {
      assert Find(h, tool, found);
      assert GetDir(p, tool) != found;
    }
  }

  /** The write log after start-up: FFmpeg's write, if any, then Rhubarb's. */
  lemma InitializeWriteLog(h: Host, p: Prefs)
    ensures Initialize(h, p).writes == p.writes + AdoptedWrite(h, p, FFmpeg) + AdoptedWrite(h, p, Rhubarb)
  {
    var p1 := Adopt(p, FFmpeg, Check(h, p, FFmpeg), AutodetectTool(h, p, FFmpeg));
    AdoptWrites(h, p, FFmpeg);
    AdoptWrites(h, p1, Rhubarb);
    assert GetDir(p1, Rhubarb) == GetDir(p, Rhubarb);
    assert AdoptedWrite(h, p1, Rhubarb) == AdoptedWrite(h, p, Rhubarb);
  }

  /** Where in the appended part of a log `pre + wf + wr` an entry with
      key `k` can sit, when `wf` and `wr` each hold at most one entry, with
      keys `kf` and `kr` that differ. */
  lemma AppendedKeys(pre: seq<Write>, wf: seq<Write>, wr: seq<Write>, kf: Key, kr: Key)
    requires kf != kr
    requires wf == [] || (|wf| == 1 && wf[0].key == kf)
    requires wr == [] || (|wr| == 1 && wr[0].key == kr)
    ensures var log := pre + wf + wr;
            forall i :: |pre| <= i < |log| ==> (log[i].key == kf ==> wf != [] && log[i] == wf[0])
    ensures var log := pre + wf + wr;
            forall i :: |pre| <= i < |log| ==> (log[i].key == kr ==> wr != [] && log[i] == wr[0])
    ensures wf != [] ==> (pre + wf + wr)[|pre|] == wf[0]
    ensures wr != [] ==> (pre + wf + wr)[|pre| + |wf|] == wr[0]
  {
  }

  /** A helper's key is written by start-up exactly when its configured
      directory fails the check and autodetection finds a directory, and
      then with that directory. */
  lemma InitializeWritesOnlyAdopted(h: Host, p: Prefs, tool: Tool)
    ensures var r := Initialize(h, p);
            Check(h, p, tool) || AutodetectTool(h, p, tool) == "" ==>
              forall i :: |p.writes| <= i < |r.writes| ==> r.writes[i].key != PathKey(tool)
    ensures var r := Initialize(h, p);
            !Check(h, p, tool) && AutodetectTool(h, p, tool) != "" ==>
              exists i :: |p.writes| <= i < |r.writes| && r.writes[i] == Write(PathKey(tool), Str(AutodetectTool(h, p, tool)))
  {
    var wf, wr := AdoptedWrite(h, p, FFmpeg), AdoptedWrite(h, p, Rhubarb);
    InitializeWriteLog(h, p);
    AppendedKeys(p.writes, wf, wr, FFmpegPath, RhubarbPath);
  }

  /** After start-up a helper's check passes exactly when some candidate,
      the configured directory or a fallback, holds the helper. */
  lemma InitializeConfiguresIffFound(h: Host, p: Prefs)
    ensures var cands := Candidates(FFmpeg, h.isWindows, GetFFmpegDir(p));
            CheckFFmpeg(h, Initialize(h, p)) <==> exists i :: 0 <= i < |cands| && Find(h, FFmpeg, cands[i])
    ensures var cands := Candidates(Rhubarb, h.isWindows, GetRhubarbDir(p));
            CheckRhubarb(h, Initialize(h, p)) <==> exists i :: 0 <= i < |cands| && Find(h, Rhubarb, cands[i])
  {
  }

  /** Running start-up a second time changes nothing and writes nothing. */
  lemma InitializeIdempotent(h: Host, p: Prefs)
    ensures Initialize(h, Initialize(h, p)) == Initialize(h, p)
  {
  }

  /** The helpers are handled independently: what start-up stores for one
      depends only on that helper's own configured directory. */
  lemma InitializeIndependent(h: Host, p: Prefs, q: Prefs)
    ensures GetFFmpegDir(p) == GetFFmpegDir(q) ==> GetFFmpegDir(Initialize(h, p)) == GetFFmpegDir(Initialize(h, q))
    ensures GetRhubarbDir(p) == GetRhubarbDir(q) ==> GetRhubarbDir(Initialize(h, p)) == GetRhubarbDir(Initialize(h, q))
  {
  }

  /** A worked case: nothing configured, FFmpeg installed only in
      `/usr/bin` of a non-Windows host whose application directory is
      `/opt/app`. */
  const ScenarioHost := Host("/opt/app", false, {"/usr/bin/ffmpeg", "/usr/bin/ffprobe"})

  const ScenarioPrefs := Prefs(map[], [])

  /** Every candidate before `/usr/bin` lacks FFmpeg. */
  lemma ScenarioEarlierMissing(i: nat)
    requires i < 7
    ensures !Find(ScenarioHost, FFmpeg, Candidates(FFmpeg, false, "")[i])
  {
    var path := Resolve("/opt/app", Candidates(FFmpeg, false, "")[i]) + FFmpegExe(false);
    if i < 6 {
      assert path[1] == 'o';
    } else {
      assert path[5] == 'l';
    }
    assert "/usr/bin/ffmpeg"[1] == 'u' && "/usr/bin/ffprobe"[1] == 'u';
    assert "/usr/bin/ffmpeg"[5] == 'b' && "/usr/bin/ffprobe"[5] == 'b';
  }

  /** Rhubarb is found nowhere. */
  lemma ScenarioNoRhubarb(dir: string)
    ensures !Find(ScenarioHost, Rhubarb, dir)
  {
    var path := Resolve("/opt/app", dir) + RhubarbExe(false);
    assert path[|path| - 1] == 'b';
    assert "/usr/bin/ffmpeg"[14] == 'g' && "/usr/bin/ffprobe"[15] == 'e';
  }

  /** Autodetection picks `/usr/bin`. */
  lemma ScenarioAutodetect()
    ensures AutodetectFFmpeg(ScenarioHost, ScenarioPrefs) == "/usr/bin"
  {
    var h := ScenarioHost;
    var cands := Candidates(FFmpeg, false, "");
    assert GetFFmpegDir(ScenarioPrefs) == "";
    forall i | 0 <= i < 7
      ensures !Find(h, FFmpeg, cands[i])
    {
      ScenarioEarlierMissing(i);
    }
    assert cands[7] == "/usr/bin";
    assert "/usr/bin" + FFmpegExe(false) == "/usr/bin/ffmpeg";
    assert "/usr/bin" + FFprobeExe(false) == "/usr/bin/ffprobe";
    assert Find(h, FFmpeg, cands[7]);
    var first := FirstValid(h, FFmpeg, cands);
    assert first.Some?;
    assert first.value == 7;
  }

  /** Start-up persists `/usr/bin` with exactly one write. */
  lemma UsrBinScenario()
    ensures Initialize(ScenarioHost, ScenarioPrefs).writes == [Write(FFmpegPath, Str("/usr/bin"))]
  {
    var h, p := ScenarioHost, ScenarioPrefs;
    ScenarioAutodetect();
    assert AutodetectTool(h, p, FFmpeg) == "/usr/bin";
    ScenarioNoRhubarb("");
    assert !Check(h, p, FFmpeg) by {
      assert Autodetect(h, FFmpeg, GetDir(p, FFmpeg)) != GetDir(p, FFmpeg);
    }
    var p1 := Adopt(p, FFmpeg, false, "/usr/bin");
    assert p1.writes == [Write(FFmpegPath, Str("/usr/bin"))];
    var found := AutodetectTool(h, p1, Rhubarb);
    ScenarioNoRhubarb(found);
    ScenarioNoRhubarb(GetDir(p1, Rhubarb));
    assert Initialize(h, p) == Adopt(p1, Rhubarb, Check(h, p1, Rhubarb), found);
  }
}
