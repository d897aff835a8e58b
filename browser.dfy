/**
 * Choosing the process that opens a URL in the host's browser. Starting that
 * process (and ignoring how it ends) is outside the model; only the choice of
 * program and arguments is modelled, with the host OS as a parameter.
 */
module Browser {
  import opened Wrappers

  /** A program to start and its arguments. */
  datatype Command = Command(name: string, args: seq<string>)

  datatype BrowserError = UnsupportedPlatform

  /** The three host systems the launcher knows. */
  predicate Supported(goos: string)
  {
    goos == "linux" || goos == "windows" || goos == "darwin"
  }

  /**
   * The command for `goos`, or `UnsupportedPlatform`. The URL is appended after
   * whatever arguments the platform needs first.
   */
  function OpenBrowser(goos: string, url: string): (r: Result<Command, BrowserError>)
    ensures r.Failure? <==> !Supported(goos)
    ensures r.Success? ==> |r.value.args| >= 1 && r.value.args[|r.value.args| - 1] == url
  {
    var opener: Option<(string, seq<string>)> :=
      match goos
      case "linux" => Some(("xdg-open", []))
      case "windows" => Some(("rundll32", ["url.dll,FileProtocolHandler"]))
      case "darwin" => Some(("open", []))
      case _ => None;
    if opener.None? then Failure(UnsupportedPlatform)
    else Success(Command(opener.value.0, opener.value.1 + [url]))
  }

  /**
   * The URL that a launch command opens: its last argument. `OpensRequestedUrl`
   * restates the last-argument clause of `OpenBrowser` in these terms, for convenience.
   */
  function LaunchedUrl(c: Command): string
    requires |c.args| >= 1
  {
    c.args[|c.args| - 1]
  }

  /** The command opens exactly the URL it was resolved for. */
  lemma OpensRequestedUrl(goos: string, url: string)
    requires Supported(goos)
    ensures OpenBrowser(goos, url).Success?
    ensures LaunchedUrl(OpenBrowser(goos, url).value) == url
  {
  }

  /** The program and the arguments before the URL depend on the platform only. */
  lemma CommandDependsOnlyOnPlatform(goos: string, u1: string, u2: string)
    requires Supported(goos)
    ensures OpenBrowser(goos, u1).value.name == OpenBrowser(goos, u2).value.name
    ensures var a1, a2 := OpenBrowser(goos, u1).value.args, OpenBrowser(goos, u2).value.args;
      |a1| == |a2| && a1[..|a1| - 1] == a2[..|a2| - 1]
  {
  }

  /** The platform table: `xdg-open url`, `rundll32 url.dll,FileProtocolHandler url`, `open url`. */
  lemma PlatformCommands(url: string)
    ensures OpenBrowser("linux", url) == Success(Command("xdg-open", [url]))
    ensures OpenBrowser("windows", url) == Success(Command("rundll32", ["url.dll,FileProtocolHandler", url]))
    ensures OpenBrowser("darwin", url) == Success(Command("open", [url]))
    ensures forall goos :: !Supported(goos) ==> OpenBrowser(goos, url) == Failure(UnsupportedPlatform)
  {
    var none: seq<string> := [];
    assert none + [url] == [url];
    assert ["url.dll,FileProtocolHandler"] + [url] == ["url.dll,FileProtocolHandler", url];
  }
}
