/** FindVFSAppointmentSlotProcessor: the search URL, the movie-name encoding, the
    wait options of GetTimeoutOption, the attribute extraction from the download
    button, the login sequence, the choice between a local and a browserless.io
    browser, and the selection and copy of the subtitle entry of a downloaded archive. */
module Workflow {
  import opened Base
  import opened Text
  import opened BrowserPage
  import opened Browserless

  /** _baseUrl. */
  const BaseUrl: string := "https://visa.vfsglobal.com/"

  // ---------------------------------------------------------------------------
  // String builders

  /** BuildSearchUrl(fromCode, toCode). */
  function BuildSearchUrl(fromCode: string, toCode: string): (url: string)
    ensures BaseUrl + "/" <= url && EndsWith(url, "/login")
  {
    var url := BaseUrl + "/" + fromCode + "/en/" + toCode + "/login";
    assert url == (BaseUrl + "/") + (fromCode + "/en/" + toCode + "/login");
    assert url == (BaseUrl + "/" + fromCode + "/en/" + toCode) + "/login";
    url
  }

  /** Codes without '/' give exactly these path segments; the empty fourth one is the
      doubled slash after the host, since _baseUrl already ends in '/'. */
  lemma SearchUrlSegments(fromCode: string, toCode: string)
    requires '/' !in fromCode && '/' !in toCode
    ensures Split(BuildSearchUrl(fromCode, toCode), '/') ==
      ["https:", "", "visa.vfsglobal.com", "", fromCode, "en", toCode, "login"]
  {
    SearchUrlShape(fromCode, toCode);
    assert '/' !in "https:" && '/' !in "visa.vfsglobal.com" && '/' !in "en" && '/' !in "login";
    SplitEightSegments("https:", "", "visa.vfsglobal.com", "", fromCode, "en", toCode, "login");
  }

  /** Eight slash-free segments joined by slashes split back into themselves. */
  lemma SplitEightSegments(a: string, b: string, c: string, d: string, e: string, f: string, g: string, h: string)
    requires '/' !in a && '/' !in b && '/' !in c && '/' !in d
    requires '/' !in e && '/' !in f && '/' !in g && '/' !in h
    ensures Split(a + "/" + (b + "/" + (c + "/" + (d + "/" + (e + "/" + (f + "/" + (g + "/" + h)))))), '/')
      == [a, b, c, d, e, f, g, h]
  {
    var y6 := g + "/" + h;
    var y5 := f + "/" + y6;
    var y4 := e + "/" + y5;
    var y3 := d + "/" + y4;
    var y2 := c + "/" + y3;
    var y1 := b + "/" + y2;
    SplitWithoutSeparator(h, '/');
    SplitAtFirstSeparator(g, h, '/');
    SplitAtFirstSeparator(f, y6, '/');
    SplitAtFirstSeparator(e, y5, '/');
    SplitAtFirstSeparator(d, y4, '/');
    SplitAtFirstSeparator(c, y3, '/');
    SplitAtFirstSeparator(b, y2, '/');
    SplitAtFirstSeparator(a, y1, '/');
  }

  /** The search URL cut at each of its slashes. */
  lemma SearchUrlShape(fromCode: string, toCode: string)
    ensures BuildSearchUrl(fromCode, toCode) ==
      "https:" + "/" + ("" + "/" + ("visa.vfsglobal.com" + "/" + ("" + "/" +
      (fromCode + "/" + ("en" + "/" + (toCode + "/" + "login"))))))
  {
    var tail := fromCode + "/" + ("en" + "/" + (toCode + "/" + "login"));
    assert tail == fromCode + "/en/" + toCode + "/login";
    assert "https:" + "/" + ("" + "/" + ("visa.vfsglobal.com" + "/" + ("" + "/"))) == BaseUrl + "/";
    assert BuildSearchUrl(fromCode, toCode) == (BaseUrl + "/") + tail;
  }

  /** EncodeMovieName(name): the pieces between spaces joined by '+', which is every
      space replaced by '+' and nothing else changed. */
  function EncodeMovieName(name: string): (r: string)
    ensures r == ReplaceChar(name, ' ', "+")
    ensures |r| == |name| && ' ' !in r
    ensures forall i :: 0 <= i < |name| ==> r[i] == if name[i] == ' ' then '+' else name[i]
  {
    JoinSplit(name, ' ', "+");
    ReplaceCharByChar(name, ' ', '+');
    Join("+", Split(name, ' '))
  }

  /** Encoding is idempotent: an encoded name has no space left to replace. */
  lemma EncodeMovieNameIdempotent(name: string)
    ensures EncodeMovieName(EncodeMovieName(name)) == EncodeMovieName(name)
  {
    var r := EncodeMovieName(name);
    ReplaceCharAbsent(r, ' ', "+");
  }

  // ---------------------------------------------------------------------------
  // GetTimeoutOption

  /** System.TimeSpan, by its count of 100 ns ticks. */
  datatype TimeSpan = TimeSpan(ticks: int)

  const TicksPerSecond: int := 10_000_000
  const TicksPerMicrosecond: int := 10

  /** TimeSpan.FromSeconds(sec): a whole number of seconds, so no component below a
      millisecond. */
  function FromSeconds(sec: int32): (t: TimeSpan)
    ensures t.ticks % TicksPerSecond == 0 && t.ticks / TicksPerSecond == sec as int
    ensures Microseconds(t) == 0
  {
    var ticks := sec as int * TicksPerSecond;
    var us := sec as int * 1_000_000;
    assert ticks == TicksPerMicrosecond * us;
    assert TruncDiv(ticks, TicksPerMicrosecond) == us;
    assert us == 1000 * (sec as int * 1000);
    assert TruncDiv(us, 1000) == sec as int * 1000;
    TimeSpan(ticks)
  }

  /** TimeSpan.Microseconds: the microseconds component (0 to 999 in magnitude), not
      the total. */
  function Microseconds(t: TimeSpan): (us: int)
    ensures -1000 < us < 1000
  {
    TruncRem(TruncDiv(t.ticks, TicksPerMicrosecond), 1000)
  }

  /** GetTimeoutOption(sec): a whole number of seconds has no microseconds component,
      so the timeout is 0 (PuppeteerSharp: no time limit) whatever sec is. */
  function GetTimeoutOption(sec: int32): (opts: WaitOptions)
    ensures opts == WaitOptions(false, Some(0))
  {
    WaitOptions(false, Some(Microseconds(FromSeconds(sec)) as int32))
  }

  /** The component is what lies below one millisecond: 1.5 ms has 500 of them. */
  lemma MicrosecondsIsAComponent()
    ensures Microseconds(TimeSpan(15_000)) == 500
    ensures Microseconds(TimeSpan(-15_000)) == -500
  {
  }

  // ---------------------------------------------------------------------------
  // Attribute extraction from the download button

  /** The id of the download button. */
  const DownloadButtonId: string := "bt-dwl-bt"

  /** An HtmlAgilityPack element, by the name index of its attributes: each
      lower-cased attribute name, and the value of the attribute the index holds for
      that name. */
  datatype HtmlElement = HtmlElement(attributes: map<string, string>)

  /** The parsed page content, by element id (what GetElementbyId looks up). */
  type HtmlDocument = map<string, HtmlElement>

  /** `element.Attributes[name]`: the attribute the index holds for the name, compared
      without regard to case, or null. */
  function AttributeByName(element: HtmlElement, name: string): Option<string>
  {
    if Lower(name) in element.attributes then Some(element.attributes[Lower(name)]) else None
  }

  /** `element.GetAttributes(params string[] names)`: one entry per requested name, in
      order, null where the element has no attribute of that name. */
  function GetAttributes(element: HtmlElement, names: seq<string>): (r: seq<Option<string>>)
    ensures |r| == |names|
    ensures forall i :: 0 <= i < |names| ==> r[i] == AttributeByName(element, names[i])
  {
    if names == [] then []
    else [AttributeByName(element, names[0])] + GetAttributes(element, names[1..])
  }

  /** Enumerable.SingleOrDefault over a sequence of nullable attributes: null for no
      entry, the entry for one, InvalidOperationException for more. */
  function SingleOrDefault(entries: seq<Option<string>>): (r: Result<Option<string>, Exception>)
    ensures r.Err? <==> |entries| > 1
    ensures |entries| == 0 ==> r == Ok(None)
    ensures |entries| == 1 ==> r == Ok(entries[0])
    ensures r.Ok? && r.value.Some? ==> r.value.value in Values(entries)
  {
    if |entries| == 0 then Ok(None)
    else if |entries| == 1 then Ok(entries[0])
    else Err(Exception(InvalidOperationException, "Sequence contains more than one element", None))
  }

  /** The non-null entries of a sequence of nullable attributes. */
  function Values(entries: seq<Option<string>>): set<string>
  {
    set i | 0 <= i < |entries| && entries[i].Some? :: entries[i].value
  }

  /** `doc.GetElementbyId("bt-dwl-bt").GetAttributes(new string[] { name })
      .SingleOrDefault()?.Value ?? String.Empty`: a missing button dereferences null;
      on the button the request yields exactly one entry, so SingleOrDefault never
      throws, and the result is the attribute's value or "" when there is none. */
  function ExtractAttribute(doc: HtmlDocument, name: string): (r: Result<string, Exception>)
    ensures DownloadButtonId !in doc ==> r.Err? && r.error.kind == NullReferenceException
    ensures DownloadButtonId in doc ==>
      var index := doc[DownloadButtonId].attributes;
      r == Ok(if Lower(name) in index then index[Lower(name)] else "")
  {
    if DownloadButtonId !in doc then
      Err(Exception(NullReferenceException, "Object reference not set to an instance of an object.", None))
    else
      var entries := GetAttributes(doc[DownloadButtonId], [name]);
      assert entries == [AttributeByName(doc[DownloadButtonId], name)];
      match SingleOrDefault(entries)
      case Err(e) => Err(e)
      case Ok(attribute) => Ok(if attribute.Some? then attribute.value else "")
  }

  /** The name is looked up without regard to case. */
  lemma ExtractAttributeIgnoresCase(doc: HtmlDocument, name: string)
    ensures ExtractAttribute(doc, name) == ExtractAttribute(doc, Lower(name))
  {
    LowerIdempotent(name);
  }

  /** ExtractDownloadUrl: the button's href, or "" when it has none. */
  function ExtractDownloadUrl(doc: HtmlDocument): (r: Result<string, Exception>)
    ensures DownloadButtonId !in doc ==> r.Err? && r.error.kind == NullReferenceException
    ensures DownloadButtonId in doc ==>
      var index := doc[DownloadButtonId].attributes;
      r == Ok(if "href" in index then index["href"] else "")
  {
    LowerOfLowerCase("href");
    ExtractAttribute(doc, "href")
  }

  /** ExtractMovieTitle: the button's data-product-title, or "" when it has none. */
  function ExtractMovieTitle(doc: HtmlDocument): (r: Result<string, Exception>)
    ensures DownloadButtonId !in doc ==> r.Err? && r.error.kind == NullReferenceException
    ensures DownloadButtonId in doc ==>
      var index := doc[DownloadButtonId].attributes;
      r == Ok(if "data-product-title" in index then index["data-product-title"] else "")
  {
    LowerOfLowerCase("data-product-title");
    ExtractAttribute(doc, "data-product-title")
  }

  /** A request for several names yields one entry per name (so SingleOrDefault would
      throw for two); the core always asks for one. */
  lemma TwoNamesTwoEntries(element: HtmlElement, a: string, b: string)
    ensures SingleOrDefault(GetAttributes(element, [a, b])).Err?
    ensures SingleOrDefault(GetAttributes(element, [a])) == Ok(AttributeByName(element, a))
  {
  }

  // ---------------------------------------------------------------------------
  // Login

  const UsernameSelector: string := "input[formControlName='username']"
  const PasswordSelector: string := "input[formControlName='password']"
  const LoginButtonSelector: string := "button.mat-btn-lg"
  /** The credentials the source types, redacted there as they are here. */
  const UserName: string := "*****"
  const Password: string := "***"
  const LoginPauseMs: int32 := 5000

  /** The calls Login(fromCode, toCode, page) issues, in order: it navigates without a
      time limit, waits for the user-name field without one either (GetTimeoutOption
      gives 0), types the credentials only after that wait, clicks only the login
      button, and pauses ten seconds in all. */
  function LoginSteps(fromCode: string, toCode: string): (s: seq<Action>)
    ensures |s| == 7
    ensures s[0].GoTo? && s[0].url == BuildSearchUrl(fromCode, toCode) && s[0].timeoutMs == 0
    ensures s[1].WaitForSelector? && s[1].selector == UsernameSelector && s[1].options.timeoutMs == Some(0)
    ensures forall i :: 0 <= i < |s| && s[i].TypeText? ==> 1 < i
    ensures forall i :: 0 <= i < |s| && s[i].Click? ==> s[i].selector == LoginButtonSelector
    ensures forall i, j :: 0 <= i < |s| && 0 <= j < |s| && s[i].TypeText? && s[j].Click? ==> i < j
    ensures s[3] == TypeText(UsernameSelector, UserName) && s[4] == TypeText(PasswordSelector, Password)
    ensures s[5] == Click(LoginButtonSelector) && s[6] == Pause(LoginPauseMs)
    ensures PausedMs(s) == 10000
  {
    var s := [ GoTo(BuildSearchUrl(fromCode, toCode), DOMContentLoaded, 0),
               WaitForSelector(UsernameSelector, GetTimeoutOption(10)),
               Pause(LoginPauseMs),
               TypeText(UsernameSelector, UserName),
               TypeText(PasswordSelector, Password),
               Click(LoginButtonSelector),
               Pause(LoginPauseMs) ];
    assert PausedMs(s[6..]) == 5000 by { assert s[6..][1..] == []; }
    assert PausedMs(s[5..]) == 5000 by { assert s[5..][1..] == s[6..]; }
    assert PausedMs(s[4..]) == 5000 by { assert s[4..][1..] == s[5..]; }
    assert PausedMs(s[3..]) == 5000 by { assert s[3..][1..] == s[4..]; }
    assert PausedMs(s[2..]) == 10000 by { assert s[2..][1..] == s[3..]; }
    assert PausedMs(s[1..]) == 10000 by { assert s[1..][1..] == s[2..]; }
    s
  }

  /** The total of the pauses in a trace. */
  function PausedMs(trace: seq<Action>): int
  {
    if trace == [] then 0
    else (if trace[0].Pause? then trace[0].ms as int else 0) + PausedMs(trace[1..])
  }

  // ---------------------------------------------------------------------------
  // Browser provisioning and the processor

  /** The setting keys the processor reads. */
  const BrowserlessEnabledSetting: string := "IsBrowserlessEnabled"
  const BrowserlessApiKeySetting: string := "BrowserlessApiKey"

  /** The key the development-mode RecaptchaPlugin gets, redacted in the source. */
  const DevelopmentAntiCaptchaKey: string := "*****"

  /** The parameter name the missing-key ArgumentNullException is constructed with. */
  const MissingKeyParamName: string := "Browserless ApiKey cannot be null for deployed instance!"

  /** The one-argument ArgumentNullException constructor takes a parameter name; its
      Message quotes it. */
  function ArgumentNull(paramName: string): Exception
  {
    Exception(ArgumentNullException, "Value cannot be null. (Parameter '" + paramName + "')", None)
  }

  /** The mode ProcessAsync passes as isDevelopment: local unless the host is not
      Development and IsBrowserlessEnabled is true (an absent setting reads false). */
  function UsesLocalBrowser(isDevelopmentEnvironment: bool, browserlessEnabled: Option<bool>): bool
  {
    isDevelopmentEnvironment || !(browserlessEnabled.Some? && browserlessEnabled.value)
  }

  /** The browser OpenBrowserPage opens its page in. */
  datatype Browser = LocalBrowser | RemoteBrowser(options: ConnectOptions)

  /** The browser OpenBrowserPage(isDevelopment) obtains, or what it throws. */
  function Provision(isDevelopment: bool, browserlessApiKey: Option<string>): (r: Result<Browser, Exception>)
    ensures r == Ok(LocalBrowser) <==> isDevelopment
    ensures !isDevelopment && browserlessApiKey.None? ==> r == Err(ArgumentNull(MissingKeyParamName))
    ensures !isDevelopment && browserlessApiKey == Some("") ==>
      r == Err(Exception(SystemException, EmptyApiKeyMessage, None))
    ensures !isDevelopment && browserlessApiKey.Some? && browserlessApiKey.value != "" ==>
      r == Ok(RemoteBrowser(ConnectOptions(true, EndpointPrefix + "token=" + browserlessApiKey.value)))
  {
    if isDevelopment then Ok(LocalBrowser)
    else if browserlessApiKey.None? then Err(ArgumentNull(MissingKeyParamName))
    else
      var key := browserlessApiKey.value;
      assert key != "" ==>
        CreatePuppeteer(browserlessApiKey, Some([])) == Ok(ConnectOptions(true, EndpointPrefix + "token=" + key)) by {
        if key != "" { NullParamsAreEmpty(key); }
      }
      match CreatePuppeteer(browserlessApiKey, Some([]))
      case Ok(options) => Ok(RemoteBrowser(options))
      case Err(e) => Err(e)
  }

  /** The browser ProcessAsync obtains: the local one unless the host is not
      Development and browserless.io is enabled; then a connection with the token
      exactly when the key is set and not empty, and otherwise the key check's
      exception. */
  lemma BrowserChoice(isDevelopmentEnvironment: bool, browserlessEnabled: Option<bool>, key: Option<string>)
    ensures var r := Provision(UsesLocalBrowser(isDevelopmentEnvironment, browserlessEnabled), key);
      && (r == Ok(LocalBrowser) <==> isDevelopmentEnvironment || browserlessEnabled != Some(true))
      && (r.Ok? && r.value.RemoteBrowser? <==>
            !isDevelopmentEnvironment && browserlessEnabled == Some(true) && key.Some? && key.value != "")
      && (r.Ok? && r.value.RemoteBrowser? ==> r.value.options == ConnectOptions(true, EndpointPrefix + "token=" + key.value))
      && (r.Err? <==> !isDevelopmentEnvironment && browserlessEnabled == Some(true) && (key.None? || key == Some("")))
  {
  }

  /** FindVFSAppointmentResponseModel as ProcessAsync returns it: freshly constructed. */
  datatype ResponseModel = EmptyResponse

  /** A `.zip` entry: its FullName and its decompressed bytes. */
  datatype ZipEntry = ZipEntry(fullName: string, content: seq<byte>)

  const SubtitleExtension: string := ".srt"
  const SubtitleNotFoundMessage: string := "Subtitle not found!"
  /** Stream.CopyTo's default buffer size. */
  const CopyBufferSize: int := 81920

  /** `entries.FirstOrDefault(entry => entry.FullName.EndsWith(".srt"))`, by index. */
  function FirstSubtitle(entries: seq<ZipEntry>): (r: Option<nat>)
    ensures r.Some? ==> r.value < |entries| && EndsWith(entries[r.value].fullName, SubtitleExtension)
    ensures r.Some? ==> forall j :: 0 <= j < r.value ==> !EndsWith(entries[j].fullName, SubtitleExtension)
    ensures r.None? <==> forall j :: 0 <= j < |entries| ==> !EndsWith(entries[j].fullName, SubtitleExtension)
  {
    if entries == [] then None
    else if EndsWith(entries[0].fullName, SubtitleExtension) then Some(0)
    else
      var rest := FirstSubtitle(entries[1..]);
      assert forall j :: 1 <= j < |entries| ==> entries[j] == entries[1..][j - 1];
      if rest.Some? then Some(rest.value + 1) else None
  }

  /** `stream.CopyTo(memoryStream)`, then ToArray: chunks of at most 81920 bytes go
      through one buffer until the source is drained. */
  method CopyStream(source: seq<byte>) returns (copied: seq<byte>)
    ensures copied == source
  {
    var buffer := new byte[CopyBufferSize];
    var position := 0;
    copied := [];
    while position < |source|
      invariant 0 <= position <= |source|
      invariant copied == source[..position]
      decreases |source| - position
    {
      var n := if |source| - position < CopyBufferSize then |source| - position else CopyBufferSize;
      var k := 0;
      while k < n
        invariant 0 <= k <= n
        invariant forall j :: 0 <= j < k ==> buffer[j] == source[position + j]
      {
        buffer[k] := source[position + k];
        k := k + 1;
      }
      assert buffer[..n] == source[position..position + n];
      assert source[..position + n] == source[..position] + source[position..position + n];
      copied := copied + buffer[..n];
      position := position + n;
    }
  }

  /** DownloadSubtitle(href), the archive at href being `entries`: the bytes of the
      first `.srt` entry, or the "Subtitle not found!" exception. */
  method DownloadSubtitle(entries: seq<ZipEntry>) returns (r: Result<seq<byte>, Exception>)
    ensures FirstSubtitle(entries).None? <==> r.Err?
    ensures r.Err? ==> r.error == Exception(SystemException, SubtitleNotFoundMessage, None)
    ensures r.Ok? ==> r.value == entries[FirstSubtitle(entries).value].content
  {
    var subtitle := FirstSubtitle(entries);
    if subtitle.None? {
      r := Err(Exception(SystemException, SubtitleNotFoundMessage, None));
      return;
    }
    var bytes := CopyStream(entries[subtitle.value].content);
    r := Ok(bytes);
  }

  /** An archive holding a subtitle besides other files gives the first subtitle. */
  lemma {:induction false} SubtitleAfterReadme(readme: ZipEntry, first: ZipEntry, second: ZipEntry)
    requires !EndsWith(readme.fullName, SubtitleExtension)
    requires EndsWith(first.fullName, SubtitleExtension) && EndsWith(second.fullName, SubtitleExtension)
    ensures FirstSubtitle([readme, first, second]) == Some(1)
  {
    assert [readme, first, second][1..] == [first, second];
  }

  class Processor {
    /** The anti-captcha key of the RecaptchaPlugin field (None: not yet created). */
    var recaptchaPluginKey: Option<string>

    constructor()
      ensures recaptchaPluginKey == None
    {
      recaptchaPluginKey := None;
    }

    /** OpenBrowserPage(isDevelopment): in development mode creates the plugin and a
        local browser; otherwise requires the BrowserlessApiKey setting and connects. */
    method OpenBrowserPage(isDevelopment: bool, browserlessApiKey: Option<string>)
      returns (r: Result<Browser, Exception>)
      modifies this
      ensures r == Provision(isDevelopment, browserlessApiKey)
      ensures recaptchaPluginKey == if isDevelopment then Some(DevelopmentAntiCaptchaKey) else old(recaptchaPluginKey)
    {
      if isDevelopment {
        recaptchaPluginKey := Some(DevelopmentAntiCaptchaKey);
        r := Ok(LocalBrowser);
      } else {
        if browserlessApiKey.None? {
          r := Err(ArgumentNull(MissingKeyParamName));
          return;
        }
        var connected := CreatePuppeteer(browserlessApiKey, Some([]));
        if connected.Err? {
          r := Err(connected.error);
          return;
        }
        r := Ok(RemoteBrowser(connected.value));
      }
    }

    /** Login(fromCode, toCode, page). */
    method Login(fromCode: string, toCode: string, page: Page)
      modifies page
      ensures page.trace == old(page.trace) + LoginSteps(fromCode, toCode)
      ensures page.head == old(page.head) && page.body == old(page.body) && page.handlers == old(page.handlers)
    {
      page.Issue(GoTo(BuildSearchUrl(fromCode, toCode), DOMContentLoaded, 0));
      page.Issue(WaitForSelector(UsernameSelector, GetTimeoutOption(10)));
      page.Issue(Pause(LoginPauseMs));
      page.Issue(TypeText(UsernameSelector, UserName));
      page.Issue(TypeText(PasswordSelector, Password));
      page.Issue(Click(LoginButtonSelector));
      page.Issue(Pause(LoginPauseMs));
    }

    /** FindAppointmentAsync(fromCode, toCode, page): logs in and returns the default
        (null, null) pair. */
    method FindAppointment(fromCode: string, toCode: string, page: Page)
      returns (fileNameInStorage: Option<string>, title: Option<string>)
      modifies page
      ensures page.trace == old(page.trace) + LoginSteps(fromCode, toCode)
      ensures page.head == old(page.head) && page.body == old(page.body) && page.handlers == old(page.handlers)
      ensures fileNameInStorage.None? && title.None?
    {
      Login(fromCode, toCode, page);
      fileNameInStorage, title := None, None;
    }

    /** ProcessAsync(request), `page` being the page the browser opens: the mode is
        chosen, the browser obtained, the fixed pair ("tur", "nld") looked up, the page
        disposed at the end of the `using` scope, and an empty response returned. */
    method ProcessAsync(page: Page, isDevelopmentEnvironment: bool, browserlessEnabled: Option<bool>,
                        browserlessApiKey: Option<string>)
      returns (r: Result<ResponseModel, Exception>)
      modifies this, page
      ensures var p := Provision(UsesLocalBrowser(isDevelopmentEnvironment, browserlessEnabled), browserlessApiKey);
        && (p.Err? ==> r == Err(p.error) && page.trace == old(page.trace))
        && (p.Ok? ==> r == Ok(EmptyResponse) && page.trace == old(page.trace) + LoginSteps("tur", "nld") + [Close])
      ensures recaptchaPluginKey ==
        if UsesLocalBrowser(isDevelopmentEnvironment, browserlessEnabled) then Some(DevelopmentAntiCaptchaKey)
        else old(recaptchaPluginKey)
      ensures page.head == old(page.head) && page.body == old(page.body) && page.handlers == old(page.handlers)
    {
      var browser := OpenBrowserPage(UsesLocalBrowser(isDevelopmentEnvironment, browserlessEnabled), browserlessApiKey);
      if browser.Err? {
        r := Err(browser.error);
        return;
      }
      var fileName, title := FindAppointment("tur", "nld", page);
      page.Issue(Close);
      r := Ok(EmptyResponse);
    }
  }
}
