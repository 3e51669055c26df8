/**
 Environment and platform probes: the operating-system predicates on the
 platform name, the memoised WSL check, and the three colour tiers decided
 from environment variables.  The environment is a map passed in; an unset
 variable reads as "", as with os.Getenv.
 */
module EnvInfo {
  import opened Wrappers
  import opened Text

  // ------------------------------------------------------------- platforms

  /** IsWin: the platform name is "windows". */
  predicate IsWin(goos: string) {
    goos == "windows"
  }

  /** IsWindows, an alias of IsWin. */
  predicate IsWindows(goos: string) {
    goos == "windows"
  }

  /** IsMac: the platform name is "darwin". */
  predicate IsMac(goos: string) {
    goos == "darwin"
  }

  /** IsLinux: the platform name is "linux". */
  predicate IsLinux(goos: string) {
    goos == "linux"
  }

  /** The two Windows checks agree, and a platform is at most one of Windows, macOS and Linux. */
  lemma PlatformsExclusive(goos: string)
    ensures IsWin(goos) == IsWindows(goos)
    ensures !(IsWin(goos) && IsMac(goos)) && !(IsWin(goos) && IsLinux(goos)) && !(IsMac(goos) && IsLinux(goos))
  {
  }

  // ------------------------------------------------------------------- WSL

  /**
   The process-wide memo of IsWSL: whether /proc/version was probed yet and
   what was read from it.
   */
  datatype WslCache = WslCache(detected: bool, contents: string)

  /** The memo at process start. */
  const WslUnprobed := WslCache(false, "")

  /**
   IsWSL.  `probe` is what reading /proc/version would give now (None when
   the file cannot be opened); it is consulted only while nothing has been
   detected.  The answer is whether the cached contents mention "Microsoft".
   */
  function IsWSL(cache: WslCache, probe: Option<string>): (res: (bool, WslCache))
    ensures res.1.detected
    ensures cache.detected ==> res.1 == cache
    ensures !cache.detected && probe.Some? ==> res.1.contents == probe.value
    ensures !cache.detected && probe.None? ==> res.1.contents == cache.contents
    ensures res.0 <==> exists i :: OccursAt(res.1.contents, "Microsoft", i)
  {
    var cache' :=
      if cache.detected then cache
      else WslCache(true, if probe.Some? then probe.value else cache.contents);
    (Contains(cache'.contents, "Microsoft"), cache')
  }

  /** After the first call the answer is fixed: whatever the file holds later, the same answer and memo come back. */
  lemma WslMemoised(cache: WslCache, p: Option<string>, q: Option<string>)
    ensures IsWSL(IsWSL(cache, p).1, q) == IsWSL(cache, p)
  {
  }

  /** A process whose first probe cannot open the file is never reported as WSL. */
  lemma WslOpenFails()
    ensures IsWSL(WslUnprobed, None) == (false, WslCache(true, ""))
  {
  }

  // --------------------------------------------------------------- colours

  /** An environment: variable name to value. */
  type Env = map<string, string>

  /** os.Getenv: the value, or "" for an unset variable. */
  function Getenv(env: Env, key: string): string {
    if key in env then env[key] else ""
  }

  /** Terminal names known to support colour without saying so in their name. */
  const SpecialColorTerms: set<string> := {"alacritty"}

  /** IsSupportTrueColor: COLORTERM mentions "truecolor". */
  function IsSupportTrueColor(env: Env): (r: bool)
    ensures r <==> exists i :: OccursAt(Getenv(env, "COLORTERM"), "truecolor", i)
  {
    Contains(Getenv(env, "COLORTERM"), "truecolor")
  }

  /** IsSupport256Color: TERM mentions "256color", or true colour is supported. */
  function IsSupport256Color(env: Env): (r: bool)
    ensures IsSupportTrueColor(env) ==> r
    ensures r <==> (exists i :: OccursAt(Getenv(env, "TERM"), "256color", i)) || IsSupportTrueColor(env)
  {
    var supported := Contains(Getenv(env, "TERM"), "256color");
    if !supported then IsSupportTrueColor(env) else supported
  }

  /**
   IsSupportColor: TERM mentions "xterm" or is a special colour terminal,
   ConEmu reports ANSI support, ANSICON is set, or 256 colours are supported.
   */
  function IsSupportColor(env: Env): (r: bool)
    ensures IsSupport256Color(env) ==> r
    ensures r <==> || (exists i :: OccursAt(Getenv(env, "TERM"), "xterm", i))
                   || Getenv(env, "TERM") == "alacritty"
                   || Getenv(env, "ConEmuANSI") == "ON"
                   || Getenv(env, "ANSICON") != ""
                   || IsSupport256Color(env)
  {
    var envTerm := Getenv(env, "TERM");
    if Contains(envTerm, "xterm") then true
    else if envTerm in SpecialColorTerms then true
    else if Getenv(env, "ConEmuANSI") == "ON" then true
    else if Getenv(env, "ANSICON") != "" then true
    else IsSupport256Color(env)
  }

  /** The tiers nest: true colour implies 256 colours, which implies basic colour. */
  lemma ColorTiers(env: Env)
    ensures IsSupportTrueColor(env) ==> IsSupport256Color(env)
    ensures IsSupport256Color(env) ==> IsSupportColor(env)
  {
  }

  /** The terminal names documented as colour-capable are recognised, whatever else is set. */
  lemma DocumentedColorTerms(env: Env)
    requires Getenv(env, "TERM") in {"xterm", "xterm-vt220", "xterm-256color", "screen-256color",
                                     "tmux-256color", "rxvt-unicode-256color"}
    ensures IsSupportColor(env)
  {
    var t := Getenv(env, "TERM");
    if t in {"xterm", "xterm-vt220", "xterm-256color"} {
      assert OccursAt(t, "xterm", 0);
    } else if t == "screen-256color" {
      assert OccursAt(t, "256color", 7);
    } else if t == "tmux-256color" {
      assert OccursAt(t, "256color", 5);
    } else {
      assert OccursAt(t, "256color", 13);
    }
  }

  /** TERM=cygwin with none of the other variables set is documented as colourless. */
  lemma CygwinHasNoColor(env: Env)
    requires Getenv(env, "TERM") == "cygwin"
    requires Getenv(env, "COLORTERM") == "" && Getenv(env, "ConEmuANSI") == "" && Getenv(env, "ANSICON") == ""
    ensures !IsSupportColor(env)
  {
    var t := Getenv(env, "TERM");
    forall i ensures !OccursAt(t, "xterm", i) {
      if 0 <= i && i + 5 <= |t| {
        assert t[i..i + 5][0] == t[i] != 'x';
      }
    }
  }
}
