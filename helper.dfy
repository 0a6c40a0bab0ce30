/** `WebDriverHelper`: the choices made before a browser session exists — the options
    object handed to the driver, which driver is launched, and what a failed login does.
    The environment (`REMOTE_HOST`, `sys.platform`) and the login attempt are parameters;
    launching a driver is described by a value instead of performed. */
module Helpers {
  import opened Outcomes
  import opened Text

  /** The arguments every supported browser gets, in this order. */
  const CommonArguments: seq<string> := [
    "--ignore-ssl-errors=yes",
    "--ignore-certificate-errors",
    "--disable-dev-shm-usage",
    "--disable-web-security",
    "--allow-insecure-localhost"
  ]

  /** The two arguments headless mode adds after the common ones. */
  const HeadlessArguments: seq<string> := ["--headless", "--window-size=1280,768"]

  /** The `browserName` capability of a supported browser; any other name raises ValueError. */
  function BrowserName(browser: string): (r: Result<string>)
    ensures r.Ok? <==> browser in {"chrome", "firefox", "edge"}
    ensures r.Err? ==> r.error == ValueError
    ensures browser == "chrome" ==> r == Ok("chrome")
    ensures browser == "firefox" ==> r == Ok("firefox")
    ensures browser == "edge" ==> r == Ok("MicrosoftEdge")
  {
    if browser == "chrome" then Ok("chrome")
    else if browser == "firefox" then Ok("firefox")
    else if browser == "edge" then Ok("MicrosoftEdge")
    else Err(ValueError)
  }

  /** The argument list `get_browser_options` builds. */
  function OptionArguments(headless: bool): seq<string> {
    if headless then CommonArguments + HeadlessArguments else CommonArguments
  }

  /** The five common arguments come first, in fixed order, and headless mode only appends
      `--headless` and then the window size after them. */
  lemma OptionArgumentsOrder(headless: bool)
    ensures var args := OptionArguments(headless);
            |args| == if headless then 7 else 5
    ensures OptionArguments(headless)[..5] == OptionArguments(false)
    ensures headless ==> OptionArguments(headless)[5] == "--headless" &&
                         OptionArguments(headless)[6] == "--window-size=1280,768"
    ensures "--headless" in OptionArguments(headless) <==> headless
  {
    if !headless {
      assert forall i :: 0 <= i < 5 ==> OptionArguments(headless)[i] != "--headless";
    }
  }

  /** The browser-specific options object: its capabilities and its argument list. */
  class Options {
    var capabilities: map<string, string>
    var arguments: seq<string>

    constructor ()
      ensures capabilities == map[] && arguments == []
    {
      capabilities := map[];
      arguments := [];
    }

    method SetCapability(name: string, value: string)
      modifies this
      ensures capabilities == old(capabilities)[name := value]
      ensures arguments == old(arguments)
    {
      capabilities := capabilities[name := value];
    }

    method AddArgument(argument: string)
      modifies this
      ensures arguments == old(arguments) + [argument]
      ensures capabilities == old(capabilities)
    {
      arguments := arguments + [argument];
    }
  }

  /** How a driver is started: through a remote executor URL, or a local driver binary. */
  datatype Launch = Remote(executor: string) | Local(browser: string, driverFile: string)

  /** A driver as `setup_driver` would create it: how it is launched and its options. */
  datatype Driver = Driver(launch: Launch, browserName: string, arguments: seq<string>)

  /** `f"{self.remote_host}:4444/wd/hub"`. */
  function Executor(host: string): string {
    host + ":4444/wd/hub"
  }

  /** The Edge driver binary for a `sys.platform` value. */
  function EdgeDriverFile(platform: string): string {
    if IsPrefix("darwin", platform) then "msedgedriver"
    else if IsPrefix("win", platform) || IsPrefix("cygwin", platform) then "msedgedriver.exe"
    else "msedgedriver"
  }

  /** Edge gets the Windows binary exactly on win and cygwin platforms. */
  lemma EdgeDriverFileWindows(platform: string)
    ensures EdgeDriverFile(platform) == "msedgedriver.exe" <==>
            IsPrefix("win", platform) || IsPrefix("cygwin", platform)
    ensures EdgeDriverFile(platform) != "msedgedriver.exe" ==> EdgeDriverFile(platform) == "msedgedriver"
  {
    if IsPrefix("darwin", platform) {
      assert platform[..3] != "win" && platform[..6] != "cygwin";
    }
  }

  /** `setup_chrome_driver`, `setup_firefox_driver`, `setup_edge_driver`. */
  function LaunchFor(browser: string, remoteHost: Option<string>, platform: string): Launch
    requires browser in {"chrome", "firefox", "edge"}
  {
    if browser == "edge" then Local("edge", EdgeDriverFile(platform))
    else if Truthy(remoteHost) then Remote(Executor(remoteHost.value))
    else if browser == "chrome" then Local("chrome", "chromedriver")
    else Local("firefox", "geckodriver")
  }

  /** Chrome and Firefox go to the remote executor exactly when `REMOTE_HOST` is set; Edge
      always runs locally. */
  lemma LaunchRemoteIff(browser: string, remoteHost: Option<string>, platform: string)
    requires browser in {"chrome", "firefox", "edge"}
    ensures LaunchFor(browser, remoteHost, platform).Remote? <==> browser != "edge" && Truthy(remoteHost)
    ensures LaunchFor(browser, remoteHost, platform).Remote? ==>
            LaunchFor(browser, remoteHost, platform).executor == remoteHost.value + ":4444/wd/hub"
    ensures LaunchFor(browser, remoteHost, platform).Local? ==>
            LaunchFor(browser, remoteHost, platform).browser == browser
  {
  }

  /** `setup_driver`: the options are built first, so an unsupported browser is rejected by
      `get_browser_options` before any dispatch. */
  function SetupDriverStep(browser: string, headless: bool, remoteHost: Option<string>, platform: string)
    : (r: Result<Driver>)
    ensures r.Err? <==> BrowserName(browser).Err?
    ensures r.Err? ==> r.error == ValueError
    ensures r.Ok? ==> r.value.browserName == BrowserName(browser).value &&
                      r.value.arguments == OptionArguments(headless)
  {
    match BrowserName(browser)
    case Err(e) => Err(e)
    case Ok(name) => Ok(Driver(LaunchFor(browser, remoteHost, platform), name, OptionArguments(headless)))
  }

  /** Every supported browser is dispatched to its own setup, with the same options. */
  lemma SetupDriverDispatch(browser: string, headless: bool, remoteHost: Option<string>, platform: string)
    requires browser in {"chrome", "firefox", "edge"}
    ensures SetupDriverStep(browser, headless, remoteHost, platform) ==
            Ok(Driver(LaunchFor(browser, remoteHost, platform), BrowserName(browser).value, OptionArguments(headless)))
    ensures SetupDriverStep(browser, headless, remoteHost, platform).value.launch.Local? ==>
            SetupDriverStep(browser, headless, remoteHost, platform).value.launch.browser == browser
  {
    LaunchRemoteIff(browser, remoteHost, platform);
  }

  /** `WebDriverHelper`: the configuration and, once started, whether the driver was quit. */
  class WebDriverHelper {
    const browser: string
    const headless: bool
    const remoteHost: Option<string>
    const platform: string
    var quit: bool

    constructor (browser: string, headless: bool, remoteHost: Option<string>, platform: string)
      ensures this.browser == browser && this.headless == headless
      ensures this.remoteHost == remoteHost && this.platform == platform
      ensures !quit
    {
      this.browser := browser;
      this.headless := headless;
      this.remoteHost := remoteHost;
      this.platform := platform;
      quit := false;
    }

    /** `get_browser_options`, one `set_capability` and one `add_argument` call at a time. */
    method GetBrowserOptions() returns (r: Result<Options>)
      ensures r.Err? <==> BrowserName(browser).Err?
      ensures r.Err? ==> r.error == ValueError
      ensures r.Ok? ==> fresh(r.value) &&
                        r.value.capabilities == map["browserName" := BrowserName(browser).value] &&
                        r.value.arguments == OptionArguments(headless)
    {
      var name := BrowserName(browser);
      if name.Err? {
        return Err(ValueError);
      }
      var options := new Options();
      options.SetCapability("browserName", name.value);
      options.AddArgument("--ignore-ssl-errors=yes");
      options.AddArgument("--ignore-certificate-errors");
      options.AddArgument("--disable-dev-shm-usage");
      options.AddArgument("--disable-web-security");
      options.AddArgument("--allow-insecure-localhost");
      if headless {
        options.AddArgument("--headless");
        options.AddArgument("--window-size=1280,768");
      }
      r := Ok(options);
    }

    /** `setup_driver`. */
    method SetupDriver() returns (r: Result<Driver>)
      ensures r == SetupDriverStep(browser, headless, remoteHost, platform)
    {
      var options := GetBrowserOptions();
      if options.Err? {
        return Err(options.error);
      }
      var launch;
      if browser == "chrome" || browser == "firefox" {
        if Truthy(remoteHost) {
          launch := Remote(Executor(remoteHost.value));
        } else if browser == "chrome" {
          launch := Local("chrome", "chromedriver");
        } else {
          launch := Local("firefox", "geckodriver");
        }
      } else {
        launch := Local("edge", EdgeDriverFile(platform));
      }
      r := Ok(Driver(launch, options.value.capabilities["browserName"], options.value.arguments));
    }

    /** `login`: the outcome of the login page is passed in; on failure the driver is quit
        before the error is raised again. */
    method Login(attempt: Outcome) returns (o: Outcome)
      modifies this
      ensures o == attempt
      ensures quit == (old(quit) || attempt.Fail?)
    {
      o := attempt;
      if attempt.Fail? {
        quit := true;
      }
    }
  }
}
