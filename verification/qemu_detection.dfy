/**
 * The QEMU detection and installation steps the two applications share
 * (their `checkQemuStatus` and `installQemu` follow the same logic): reading
 * the version out of `qemu-system-x86_64 --version`, and choosing an
 * installer from the `OS` environment variable.
 */
module QemuDetection {
  import opened Wrappers
  import opened JsStrings
  import opened OsCalls

  // ---------------------------------------------------------------------
  // The version banner
  // ---------------------------------------------------------------------

  const VersionCommand: string := "qemu-system-x86_64 --version"
  const WhichCommand: string := "which qemu-system-x86_64"
  const VersionPrefix: string := "QEMU emulator version "
  const UnknownVersion: string := "Unknown"

  /**
   * `/QEMU emulator version ([^\s\n]+)/` matches at `k`: the prefix is
   * there and at least one non-white-space character follows it.
   */
  predicate MatchesAt(s: string, k: nat) {
    OccursAt(s, VersionPrefix, k) && k + |VersionPrefix| < |s| && !IsSpace(s[k + |VersionPrefix|])
  }

  /** The leftmost match at or after `from`, as the regular expression search finds it. */
  function FirstMatchFrom(s: string, from: nat): (r: Option<nat>)
    ensures r.Some? ==> from <= r.value && MatchesAt(s, r.value)
    ensures r.Some? ==> forall k :: from <= k < r.value ==> !MatchesAt(s, k)
    ensures r.None? ==> forall k :: from <= k ==> !MatchesAt(s, k)
    decreases |s| - from
  {
    if |s| <= from then None
    else if MatchesAt(s, from) then Some(from)
    else FirstMatchFrom(s, from + 1)
  }

  /** The greedy `[^\s\n]+` run starting at `i`: every non-white-space character up to the next white space or the end. */
  function TokenFrom(s: string, i: nat): (t: string)
    requires i <= |s|
    ensures i + |t| <= |s| && t == s[i..i + |t|]
    ensures forall j :: 0 <= j < |t| ==> !IsSpace(t[j])
    ensures i + |t| == |s| || IsSpace(s[i + |t|])
    decreases |s| - i
  {
    if i == |s| || IsSpace(s[i]) then ""
    else [s[i]] + TokenFrom(s, i + 1)
  }

  /** A run of non-white-space characters that ends at white space or at the end is the token there. */
  lemma {:induction false} TokenUnique(s: string, i: nat, t: string)
    requires i + |t| <= |s| && t == s[i..i + |t|]
    requires forall j :: 0 <= j < |t| ==> !IsSpace(t[j])
    requires i + |t| == |s| || IsSpace(s[i + |t|])
    ensures TokenFrom(s, i) == t
    decreases |t|
  {
    if |t| > 0 {
      assert s[i] == t[0];
      TokenUnique(s, i + 1, t[1..]);
      assert t == [t[0]] + t[1..];
    }
  }

  /** `versionMatch ? versionMatch[1] : 'Unknown'`. */
  function VersionLabel(s: string): (v: string)
    ensures (forall k: nat :: !MatchesAt(s, k)) ==> v == UnknownVersion
    ensures forall k: nat :: MatchesAt(s, k) && (forall j :: 0 <= j < k ==> !MatchesAt(s, j))
              ==> v == TokenFrom(s, k + |VersionPrefix|)
  {
    match FirstMatchFrom(s, 0)
    case None => UnknownVersion
    case Some(k) =>
      LeftmostUnique(s, k);
      TokenFrom(s, k + |VersionPrefix|)
  }

  /** There is only one leftmost match. */
  lemma LeftmostUnique(s: string, k: nat)
    requires MatchesAt(s, k) && forall j :: 0 <= j < k ==> !MatchesAt(s, j)
    ensures forall m: nat :: MatchesAt(s, m) && (forall j :: 0 <= j < m ==> !MatchesAt(s, j)) ==> m == k
  {
  }

  /**
   * The banner QEMU prints, `QEMU emulator version <v>` followed by white
   * space or nothing, yields exactly `v`.
   */
  lemma BannerVersion(v: string, rest: string)
    requires |v| > 0 && forall j :: 0 <= j < |v| ==> !IsSpace(v[j])
    requires rest == [] || IsSpace(rest[0])
    ensures VersionLabel(VersionPrefix + v + rest) == v
  {
    var s := VersionPrefix + v + rest;
    var n := |VersionPrefix|;
    assert s[..n] == VersionPrefix;
    assert s[n] == v[0];
    assert MatchesAt(s, 0);
    assert s[n..n + |v|] == v;
    if rest != [] {
      assert s[n + |v|] == rest[0];
    }
    TokenUnique(s, n, v);
  }

  /** Output that never mentions the prefix gives the fallback label. */
  lemma NoBannerUnknown(s: string)
    requires !Includes(s, VersionPrefix)
    ensures VersionLabel(s) == UnknownVersion
  {
    forall k: nat ensures !MatchesAt(s, k) {
      IncludesIff(s, VersionPrefix);
    }
  }

  /** What the status check found out. */
  datatype Detection = Found(version: string, path: string) | Missing

  /**
   * `checkQemuStatus()` of the applications, given the outcomes of
   * `qemu-system-x86_64 --version` and `which qemu-system-x86_64`. The
   * second runs only after the first exits 0; a non-zero exit of the
   * first, or a throw of either, means QEMU is missing. The exit code of
   * `which` is not consulted.
   */
  function DetectQemu(versionCall: CallOutcome<ExecResult>, whichCall: CallOutcome<ExecResult>): (r: Detection)
    ensures r.Found? <==> ExitedZero(versionCall) && whichCall.Returned?
    ensures r.Found? ==> r.version == VersionLabel(versionCall.value.stdOut)
    ensures r.Found? ==> r.path == Trim(whichCall.value.stdOut)
  {
    if !ExitedZero(versionCall) then Missing
    else match whichCall
      case Threw(_) => Missing
      case Returned(w) => Found(VersionLabel(versionCall.value.stdOut), Trim(w.stdOut))
  }

  /** The commands the status check issues: `which` follows only a successful version query. */
  function DetectionCommands(versionCall: CallOutcome<ExecResult>): (cs: seq<string>)
    ensures |cs| >= 1 && cs[0] == VersionCommand
    ensures |cs| == 2 <==> ExitedZero(versionCall)
    ensures |cs| <= 2 && (|cs| == 2 ==> cs[1] == WhichCommand)
  {
    if ExitedZero(versionCall) then [VersionCommand, WhichCommand] else [VersionCommand]
  }

  // ---------------------------------------------------------------------
  // Choosing an installer
  // ---------------------------------------------------------------------

  /** `toLowerCase` on the ASCII letters; every other character is kept. */
  function LowerChar(c: char): char {
    if 'A' <= c <= 'Z' then (c as int + 32) as char else c
  }

  function ToLowerAscii(s: string): (r: string)
    ensures |r| == |s|
    ensures forall i :: 0 <= i < |s| ==> r[i] == LowerChar(s[i])
  {
    seq(|s|, i requires 0 <= i < |s| => LowerChar(s[i]))
  }

  /** Lowering twice is lowering once. */
  lemma ToLowerIdempotent(s: string)
    ensures ToLowerAscii(ToLowerAscii(s)) == ToLowerAscii(s)
  {
  }

  /** The installers `installQemu` can pick. */
  datatype Installer = Homebrew | Apt | DownloadPage | NoInstaller

  const HomebrewCommand: string := "brew install qemu"
  const AptCommand: string := "sudo apt update && sudo apt install -y qemu-system-x86"
  const DownloadUrl: string := "https://www.qemu.org/download/#windows"

  /**
   * The platform test of `installQemu`, on the lower-cased `OS` value:
   * `darwin` or `mac` first, then `linux`, then `windows`.
   */
  function Dispatch(platform: string): (r: Installer)
    ensures var p := ToLowerAscii(platform);
      && (r == Homebrew <==> Includes(p, "darwin") || Includes(p, "mac"))
      && (r == Apt <==> !Includes(p, "darwin") && !Includes(p, "mac") && Includes(p, "linux"))
      && (r == DownloadPage <==> !Includes(p, "darwin") && !Includes(p, "mac") && !Includes(p, "linux") && Includes(p, "windows"))
  {
    var p := ToLowerAscii(platform);
    if Includes(p, "darwin") || Includes(p, "mac") then Homebrew
    else if Includes(p, "linux") then Apt
    else if Includes(p, "windows") then DownloadPage
    else NoInstaller
  }

  /** An unrecognised platform gets no installer at all. */
  lemma DispatchUnmatched(platform: string)
    requires var p := ToLowerAscii(platform);
      !Includes(p, "darwin") && !Includes(p, "mac") && !Includes(p, "linux") && !Includes(p, "windows")
    ensures Dispatch(platform) == NoInstaller
  {
  }

  /** The case of the platform name does not matter. */
  lemma DispatchIgnoresCase(platform: string)
    ensures Dispatch(ToLowerAscii(platform)) == Dispatch(platform)
  {
    ToLowerIdempotent(platform);
  }

  /** What `installQemu` did. */
  datatype InstallRun = InstallRun(
    /** The install command run, or the page opened, if any. */
    issued: Option<string>,
    /** Whether the status check runs again afterwards. */
    recheck: bool,
    /** The message of the error that led to the manual-install dialog, if one did. */
    failure: Option<string>)

  const InstallFailedPrefix: string := "Installation failed: "

  /**
   * `installQemu()`, given the outcomes of reading `OS`, of opening the
   * download page and of running the install command; only the ones the
   * chosen path reaches are consulted.
   */
  function InstallQemu(platformCall: CallOutcome<string>, openCall: CallOutcome<()>, installCall: CallOutcome<ExecResult>): (r: InstallRun)
    ensures r.recheck ==> r.failure.None?
    ensures r.recheck <==> platformCall.Returned? && Dispatch(platformCall.value) in {Homebrew, Apt} && ExitedZero(installCall)
    ensures platformCall.Returned? && Dispatch(platformCall.value) == NoInstaller ==> r == InstallRun(None, false, None)
    ensures platformCall.Returned? && Dispatch(platformCall.value) == Homebrew ==> r.issued == Some(HomebrewCommand)
    ensures platformCall.Returned? && Dispatch(platformCall.value) == Apt ==> r.issued == Some(AptCommand)
    ensures platformCall.Returned? && Dispatch(platformCall.value) == DownloadPage
      ==> r.issued == Some(DownloadUrl) && !r.recheck && (r.failure.Some? <==> openCall.Threw?)
    ensures platformCall.Returned? && Dispatch(platformCall.value) == DownloadPage && openCall.Threw?
      ==> r.failure == Some(openCall.message)
    ensures platformCall.Returned? && Dispatch(platformCall.value) in {Homebrew, Apt} && installCall.Threw?
      ==> r.failure == Some(installCall.message)
    ensures platformCall.Returned? && Dispatch(platformCall.value) in {Homebrew, Apt}
      && installCall.Returned? && installCall.value.exitCode != 0
      ==> r.failure == Some(InstallFailedPrefix + installCall.value.stdErr)
    ensures platformCall.Threw? ==> r == InstallRun(None, false, Some(platformCall.message))
  {
    match platformCall
    case Threw(msg) => InstallRun(None, false, Some(msg))
    case Returned(platform) =>
      match Dispatch(platform)
      case NoInstaller => InstallRun(None, false, None)
      case DownloadPage =>
        (match openCall
         case Threw(msg) => InstallRun(Some(DownloadUrl), false, Some(msg))
         case Returned(_) => InstallRun(Some(DownloadUrl), false, None))
      case _ =>
        var command := if Dispatch(platform) == Homebrew then HomebrewCommand else AptCommand;
        match installCall
        case Threw(msg) => InstallRun(Some(command), false, Some(msg))
        case Returned(res) =>
          if res.exitCode == 0 then InstallRun(Some(command), true, None)
          else InstallRun(Some(command), false, Some(InstallFailedPrefix + res.stdErr))
  }
}
