/** The anti-captcha bridge of the extensions: the classification of page messages
    (CheckError), the per-message decision of the handlers UseAntiCaptchaAsync
    attaches, the injection of the solver's account-key marker and script into the
    document head (StartCaptchaSolvingProcess), and the wait-and-report policy of
    SolveCaptchaAsync. */
module CaptchaBridge {
  import opened Base
  import opened Text
  import opened BrowserPage

  const NoIdleWorkers: string := "No idle workers are available at the moment"
  const RecaptchaRendered: string := "reCAPTCHA has already been rendered in this element"
  /** The common start of the two messages CheckError throws. */
  const UnableToSolve: string := "Unable to solve recaptcha. "
  const NoIdleWorkersMessage: string := UnableToSolve + NoIdleWorkers + "."
  const RecaptchaRenderedMessage: string := UnableToSolve + RecaptchaRendered + "."
  const RecaptchaSolvingInProcess: string := "Solving is in process"

  /** The id of the hidden div that carries the solver's account key. */
  const MarkerId: string := "anticaptcha-imacros-account-key"
  const ReCaptchaScriptUrl: string := "https://cdn.antcpt.com/imacros_inclusion/recaptcha.js?"
  /** The element the solver adds once it has solved the challenge. */
  const SolvedSelector: string := "div[class='antigate_solver solved']"
  /** The pause UseAntiCaptchaAsync takes after the injection. */
  const SettleAfterInjectionMs: int32 := 1000

  // ---------------------------------------------------------------------------
  // Classification of page messages

  /** What CheckError does: return, or throw an exception. */
  datatype Verdict = Passes | Throws(ex: Exception)

  function Failure(message: string): Exception
  {
    Exception(SystemException, message, None)
  }

  /** CheckError(error): the "already rendered" phrase is looked for first, then the
      "no idle workers" phrase; a null text passes. */
  function CheckError(error: Option<string>): (v: Verdict)
    ensures v.Throws? <==>
      error.Some? && (Contains(error.value, RecaptchaRendered) || Contains(error.value, NoIdleWorkers))
    ensures v.Throws? ==>
      v.ex == Failure(if Contains(error.value, RecaptchaRendered) then RecaptchaRenderedMessage
                      else NoIdleWorkersMessage)
  {
    if error.Some? && Contains(error.value, RecaptchaRendered) then Throws(Failure(RecaptchaRenderedMessage))
    else if error.Some? && Contains(error.value, NoIdleWorkers) then Throws(Failure(NoIdleWorkersMessage))
    else Passes
  }

  /** A text that carries both phrases, in either order, fails as "already rendered". */
  lemma RenderedTakesPriority(a: string, b: string, c: string)
    ensures CheckError(Some(a + NoIdleWorkers + b + RecaptchaRendered + c)) == Throws(Failure(RecaptchaRenderedMessage))
    ensures CheckError(Some(a + RecaptchaRendered + b + NoIdleWorkers + c)) == Throws(Failure(RecaptchaRenderedMessage))
  {
    ContainsInfix(a + NoIdleWorkers + b, RecaptchaRendered, c);
    assert a + RecaptchaRendered + b + NoIdleWorkers + c == a + RecaptchaRendered + (b + NoIdleWorkers + c);
    ContainsInfix(a, RecaptchaRendered, b + NoIdleWorkers + c);
  }

  /** The bare "no idle workers" phrase fails as "no idle workers": it is too short to
      hold the other phrase. */
  lemma NoIdleWorkersAlone()
    ensures CheckError(Some(NoIdleWorkers)) == Throws(Failure(NoIdleWorkersMessage))
  {
    if Contains(NoIdleWorkers, RecaptchaRendered) {
      ContainsOnlyShorter(NoIdleWorkers, RecaptchaRendered);
    }
    ContainsInfix([], NoIdleWorkers, []);
    assert [] + NoIdleWorkers + [] == NoIdleWorkers;
  }

  /** The message CheckError throws for "already rendered", seen again, is classified
      the same way. */
  lemma RenderedMessageIsStable()
    ensures CheckError(Some(RecaptchaRenderedMessage)) == Throws(Failure(RecaptchaRenderedMessage))
  {
    ContainsInfix(UnableToSolve, RecaptchaRendered, ".");
  }

  // ---------------------------------------------------------------------------
  // Page events and the handlers UseAntiCaptchaAsync attaches

  /** PuppeteerSharp's ConsoleType; the members not listed behave like Log here. */
  datatype ConsoleType = Log | Debug | Info | Error | Warning

  datatype ConsoleMessage = ConsoleMessage(kind: ConsoleType, text: string)

  /** The three events the handlers observe: page.PageError (an uncaught exception in
      the page), page.Error (a page crash) and page.Console. */
  datatype PageEvent =
    | PageErrorEvent(message: Option<string>)
    | ErrorEvent(error: Option<string>)
    | ConsoleEvent(msg: ConsoleMessage)

  /** What a handler does with one event: throw, start the "solving started" callback,
      or nothing. */
  datatype Reaction = Fatal(ex: Exception) | SolvingStarted | NoEffect

  function ChannelOf(e: PageEvent): Channel
  {
    match e
    case PageErrorEvent(_) => PageErrorChannel
    case ErrorEvent(_) => ErrorChannel
    case ConsoleEvent(_) => ConsoleChannel
  }

  /** The text a handler hands to CheckError when it classifies the event. */
  function ClassifiedText(e: PageEvent): Option<string>
  {
    match e
    case PageErrorEvent(m) => m
    case ErrorEvent(m) => m
    case ConsoleEvent(msg) => Some(msg.text)
  }

  /** The decision of the handler for e's channel. Error-level console messages and
      the two error channels are only classified; other console messages only start
      the callback, when they say solving is in process. */
  function Dispatch(e: PageEvent): (r: Reaction)
    ensures r.SolvingStarted? <==>
      e.ConsoleEvent? && e.msg.kind != Error && Contains(e.msg.text, RecaptchaSolvingInProcess)
    ensures r.Fatal? <==>
      !(e.ConsoleEvent? && e.msg.kind != Error) && CheckError(ClassifiedText(e)).Throws?
    ensures r.Fatal? ==> r.ex == CheckError(ClassifiedText(e)).ex
  {
    match e
    case PageErrorEvent(m) =>
      if CheckError(m).Throws? then Fatal(CheckError(m).ex) else NoEffect
    case ErrorEvent(m) =>
      if CheckError(m).Throws? then Fatal(CheckError(m).ex) else NoEffect
    case ConsoleEvent(msg) =>
      if msg.kind == Error then
        (if CheckError(Some(msg.text)).Throws? then Fatal(CheckError(Some(msg.text)).ex) else NoEffect)
      else if Contains(msg.text, RecaptchaSolvingInProcess) then SolvingStarted
      else NoEffect
  }

  /** A console message below Error level is never fatal, whatever failure phrases it
      carries, and starts the callback when it says solving is in process. */
  lemma {:induction false} LogLevelNeverFatal(kind: ConsoleType, a: string, b: string)
    requires kind != Error
    ensures !Dispatch(ConsoleEvent(ConsoleMessage(kind, a + RecaptchaRendered + b + NoIdleWorkers))).Fatal?
    ensures Dispatch(ConsoleEvent(ConsoleMessage(kind, a + RecaptchaSolvingInProcess + b))) == SolvingStarted
  {
    ContainsInfix(a, RecaptchaSolvingInProcess, b);
  }

  /** An error-level console message never starts the callback, and one carrying a
      failure phrase is fatal. */
  lemma {:induction false} ErrorLevelOnlyClassified(a: string, b: string)
    ensures Dispatch(ConsoleEvent(ConsoleMessage(Error, a + RecaptchaSolvingInProcess + b))) != SolvingStarted
    ensures Dispatch(ConsoleEvent(ConsoleMessage(Error, a + NoIdleWorkers + b))).Fatal?
  {
    ContainsInfix(a, NoIdleWorkers, b);
  }

  /** The three handlers one UseAntiCaptchaAsync call attaches. */
  const AntiCaptchaHandlers: seq<Channel> := [PageErrorChannel, ErrorChannel, ConsoleChannel]

  /** The reactions the attached handlers have to one event. The handlers of a
      channel form one multicast delegate and run in attachment order; a handler that
      throws ends the invocation, so no later handler sees the event. */
  function Deliver(handlers: seq<Channel>, e: PageEvent): seq<Reaction>
  {
    if handlers == [] then []
    else if handlers[0] != ChannelOf(e) then Deliver(handlers[1..], e)
    else if Dispatch(e).Fatal? then [Dispatch(e)]
    else [Dispatch(e)] + Deliver(handlers[1..], e)
  }

  /** Some reaction threw, which ended the delivery. */
  predicate Stopped(reactions: seq<Reaction>)
  {
    exists i :: 0 <= i < |reactions| && reactions[i].Fatal?
  }

  /** Delivering to a longer list: the first list's reactions, then the second list's
      unless a handler of the first threw. */
  lemma {:induction false} DeliverAppend(h1: seq<Channel>, h2: seq<Channel>, e: PageEvent)
    ensures Deliver(h1 + h2, e) == Deliver(h1, e) + (if Stopped(Deliver(h1, e)) then [] else Deliver(h2, e))
    decreases |h1|
  {
    if h1 == [] {
      assert h1 + h2 == h2;
      assert !Stopped(Deliver(h1, e));
    } else {
      var h := h1 + h2;
      assert h[0] == h1[0] && h[1..] == h1[1..] + h2;
      if h1[0] != ChannelOf(e) {
        DeliverAppend(h1[1..], h2, e);
      } else if Dispatch(e).Fatal? {
        assert Deliver(h1, e)[0].Fatal?;
      } else {
        DeliverAppend(h1[1..], h2, e);
        var rest := Deliver(h1[1..], e);
        assert Deliver(h1, e) == [Dispatch(e)] + rest;
        assert Stopped([Dispatch(e)] + rest) == Stopped(rest) by {
          if Stopped(rest) {
            var i :| 0 <= i < |rest| && rest[i].Fatal?;
            assert ([Dispatch(e)] + rest)[i + 1] == rest[i];
          }
          if Stopped([Dispatch(e)] + rest) {
            var i :| 0 <= i < |[Dispatch(e)] + rest| && ([Dispatch(e)] + rest)[i].Fatal?;
            assert i > 0 && rest[i - 1] == ([Dispatch(e)] + rest)[i];
          }
        }
      }
    }
  }

  /** Each UseAntiCaptchaAsync call adds one more reaction to every event, Dispatch's,
      unless an earlier handler already threw. */
  lemma {:induction false} AttachAddsOneReaction(handlers: seq<Channel>, e: PageEvent)
    ensures Deliver(handlers + AntiCaptchaHandlers, e) ==
      Deliver(handlers, e) + (if Stopped(Deliver(handlers, e)) then [] else [Dispatch(e)])
  {
    DeliverAppend(handlers, AntiCaptchaHandlers, e);
    var h := AntiCaptchaHandlers;
    assert h[1..] == [ErrorChannel, ConsoleChannel] && h[1..][1..] == [ConsoleChannel];
    assert Deliver([ConsoleChannel], e) == if e.ConsoleEvent? then [Dispatch(e)] else [];
  }

  /** The handlers of n UseAntiCaptchaAsync calls on a fresh page. */
  function AttachedTimes(n: nat): seq<Channel>
  {
    if n == 0 then [] else AttachedTimes(n - 1) + AntiCaptchaHandlers
  }

  /** After n calls an event that no handler throws for gets the same reaction n
      times (a message saying solving is in process starts the callback n times); an
      event a handler throws for is seen only by the first handler. */
  lemma {:induction false} RepeatedAttachRepeatsReaction(n: nat, e: PageEvent)
    ensures !Dispatch(e).Fatal? ==> |Deliver(AttachedTimes(n), e)| == n
    ensures !Dispatch(e).Fatal? ==> forall i :: 0 <= i < n ==> Deliver(AttachedTimes(n), e)[i] == Dispatch(e)
    ensures Dispatch(e).Fatal? && n >= 1 ==> Deliver(AttachedTimes(n), e) == [Dispatch(e)]
    ensures n == 0 ==> Deliver(AttachedTimes(n), e) == []
  {
    if n > 0 {
      RepeatedAttachRepeatsReaction(n - 1, e);
      AttachAddsOneReaction(AttachedTimes(n - 1), e);
      var before := Deliver(AttachedTimes(n - 1), e);
      if Dispatch(e).Fatal? {
        if n - 1 == 0 {
          assert !Stopped(before);
        } else {
          assert before[0].Fatal?;
        }
      }
    }
  }

  /** After two UseAntiCaptchaAsync calls a page error saying no worker is idle is
      seen by the first handler only: it throws, and the second never runs. */
  lemma TwoCallsStopAtFirstThrow()
    ensures Deliver(AttachedTimes(2), PageErrorEvent(Some(NoIdleWorkers))) == [Fatal(Failure(NoIdleWorkersMessage))]
  {
    NoIdleWorkersAlone();
    RepeatedAttachRepeatsReaction(2, PageErrorEvent(Some(NoIdleWorkers)));
  }

  // ---------------------------------------------------------------------------
  // Injection into the document head

  /** The CaptchaType enumeration: ReCaptcha, or any other member by its name. */
  datatype CaptchaType = ReCaptcha | OtherType(name: string)

  /** The solver script URL before its random suffix (scriptSolvingCaptcha). */
  function ScriptPrefix(t: CaptchaType): string
  {
    match t
    case ReCaptcha => ReCaptchaScriptUrl
    case OtherType(_) => ""
  }

  /** The hidden div holding the account key. */
  function MarkerDiv(key: string): Node
  {
    Node("div", MarkerId, key, true, "")
  }

  /** The script element whose src is the prefix followed by Math.random(). */
  function SolverScript(t: CaptchaType, random: string): Node
  {
    Node("script", "", "", false, ScriptPrefix(t) + random)
  }

  function CountId(nodes: seq<Node>, id: string): nat
  {
    if nodes == [] then 0 else (if nodes[0].id == id then 1 else 0) + CountId(nodes[1..], id)
  }

  function CountTag(nodes: seq<Node>, tag: string): nat
  {
    if nodes == [] then 0 else (if nodes[0].tag == tag then 1 else 0) + CountTag(nodes[1..], tag)
  }

  /** The line break and indentation inside the verbatim script literals. */
  const ScriptEol: string := "\r\n"
  const Indent16: string := "                "
  const Indent20: string := Indent16 + "    "

  /** The text of the first script, which creates the marker; the key is spliced in
      between double quotes. */
  function MarkerScript(key: string): (script: string)
    ensures Contains(script, "d.innerHTML = \"" + key + "\";")
  {
    var before := "var d = document.getElementById(\"" + MarkerId + "\");" + ScriptEol
      + Indent16 + "if (!d)" + ScriptEol
      + Indent16 + "{" + ScriptEol
      + Indent20 + "d = document.createElement(\"div\");";
    var after := "d.style.display = \"none\";" + ScriptEol
      + Indent20 + "d.id = \"" + MarkerId + "\";" + ScriptEol
      + Indent20 + "document.getElementsByTagName('head')[0].appendChild(d);" + ScriptEol
      + Indent16 + "}";
    ContainsInfix(before, "d.innerHTML = \"" + key + "\";", after);
    before + ("d.innerHTML = \"" + key + "\";") + after
  }

  /** The text of the second script, which appends the solver script; the URL prefix
      is spliced in between double quotes. */
  function SolverScriptSource(t: CaptchaType): (script: string)
    ensures Contains(script, "s.src = \"" + ScriptPrefix(t) + "\" + Math.random();")
  {
    var before := "var s = document.createElement(\"script\");" + ScriptEol + Indent16;
    var after := ScriptEol + Indent16 + "document.getElementsByTagName('head')[0].appendChild(s);";
    ContainsInfix(before, "s.src = \"" + ScriptPrefix(t) + "\" + Math.random();", after);
    before + ("s.src = \"" + ScriptPrefix(t) + "\" + Math.random();") + after
  }

  /** The head after the two scripts of StartCaptchaSolvingProcess: the marker is
      appended when getElementById finds no element with its id anywhere in the
      document, then a script is appended. */
  function Inject(head: seq<Node>, body: seq<Node>, key: string, t: CaptchaType, random: string): (h: seq<Node>)
    ensures |h| == |head| + (if CountId(head + body, MarkerId) == 0 then 2 else 1)
    ensures h[..|head|] == head && h[|h| - 1] == SolverScript(t, random)
    ensures CountId(head + body, MarkerId) == 0 ==> h[|head|] == MarkerDiv(key)
  {
    (if CountId(head + body, MarkerId) == 0 then head + [MarkerDiv(key)] else head) + [SolverScript(t, random)]
  }

  lemma {:induction false} CountIdAppend(a: seq<Node>, b: seq<Node>, id: string)
    ensures CountId(a + b, id) == CountId(a, id) + CountId(b, id)
    decreases |a|
  {
    if a == [] {
      assert a + b == b;
    } else {
      assert (a + b)[1..] == a[1..] + b;
      CountIdAppend(a[1..], b, id);
    }
  }

  lemma {:induction false} CountTagAppend(a: seq<Node>, b: seq<Node>, tag: string)
    ensures CountTag(a + b, tag) == CountTag(a, tag) + CountTag(b, tag)
    decreases |a|
  {
    if a == [] {
      assert a + b == b;
    } else {
      assert (a + b)[1..] == a[1..] + b;
      CountTagAppend(a[1..], b, tag);
    }
  }

  /** Injection adds a marker only to a document that has none, and exactly one
      script, whose src is the reCAPTCHA URL (for ReCaptcha) or nothing, followed by
      the random text. */
  lemma InjectEffect(head: seq<Node>, body: seq<Node>, key: string, t: CaptchaType, random: string)
    ensures var h := Inject(head, body, key, t, random);
      && h[|h| - 1].tag == "script"
      && h[|h| - 1].src == (if t == ReCaptcha then ReCaptchaScriptUrl else "") + random
      && CountId(h + body, MarkerId) == (if CountId(head + body, MarkerId) == 0 then 1 else CountId(head + body, MarkerId))
      && CountTag(h, "script") == CountTag(head, "script") + 1
  {
    InjectMarkerCount(head, body, key, t, random);
    InjectScriptCount(head, body, key, t, random);
  }

  lemma InjectMarkerCount(head: seq<Node>, body: seq<Node>, key: string, t: CaptchaType, random: string)
    ensures var h := Inject(head, body, key, t, random);
      CountId(h + body, MarkerId) == (if CountId(head + body, MarkerId) == 0 then 1 else CountId(head + body, MarkerId))
  {
    var h := Inject(head, body, key, t, random);
    var s := [SolverScript(t, random)];
    assert CountId(s, MarkerId) == 0;
    CountIdAppend(head, body, MarkerId);
    CountIdAppend(h, body, MarkerId);
    if CountId(head + body, MarkerId) == 0 {
      var m := [MarkerDiv(key)];
      assert CountId(m, MarkerId) == 1;
      CountIdAppend(head + m, s, MarkerId);
      CountIdAppend(head, m, MarkerId);
    } else {
      CountIdAppend(head, s, MarkerId);
    }
  }

  lemma InjectScriptCount(head: seq<Node>, body: seq<Node>, key: string, t: CaptchaType, random: string)
    ensures CountTag(Inject(head, body, key, t, random), "script") == CountTag(head, "script") + 1
  {
    var s := [SolverScript(t, random)];
    if CountId(head + body, MarkerId) == 0 {
      var m := [MarkerDiv(key)];
      CountTagAppend(head + m, s, "script");
      CountTagAppend(head, m, "script");
    } else {
      CountTagAppend(head, s, "script");
    }
  }

  /** Two solving attempts on a page without a marker leave one marker, holding the
      first key, and two scripts, in call order. */
  lemma InjectTwice(head: seq<Node>, body: seq<Node>, key1: string, key2: string,
                    t: CaptchaType, random1: string, random2: string)
    requires CountId(head + body, MarkerId) == 0
    ensures var h := Inject(Inject(head, body, key1, t, random1), body, key2, t, random2);
      && h == head + [MarkerDiv(key1), SolverScript(t, random1), SolverScript(t, random2)]
      && CountId(h + body, MarkerId) == 1
  {
    var h1 := Inject(head, body, key1, t, random1);
    InjectEffect(head, body, key1, t, random1);
    InjectEffect(h1, body, key2, t, random2);
    assert h1 == head + [MarkerDiv(key1), SolverScript(t, random1)];
  }

  // ---------------------------------------------------------------------------
  // The page operations

  /** StartCaptchaSolvingProcess(page, key, captchaType); `random` is the text of the
      Math.random() value the script appends to the URL. */
  method StartCaptchaSolvingProcess(page: Page, key: string, t: CaptchaType, random: string)
    modifies page
    ensures page.head == Inject(old(page.head), old(page.body), key, t, random)
    ensures page.trace == old(page.trace) + InjectionScripts(key, t)
    ensures page.body == old(page.body) && page.handlers == old(page.handlers)
  {
    page.Issue(Evaluate(MarkerScript(key)));
    if CountId(page.head + page.body, MarkerId) == 0 {
      page.AppendToHead(MarkerDiv(key));
    }
    page.Issue(Evaluate(SolverScriptSource(t)));
    page.AppendToHead(SolverScript(t, random));
  }

  /** The two EvaluateExpressionAsync calls StartCaptchaSolvingProcess issues. */
  function InjectionScripts(key: string, t: CaptchaType): seq<Action>
  {
    [Evaluate(MarkerScript(key)), Evaluate(SolverScriptSource(t))]
  }

  /** UseAntiCaptchaAsync(page, key, callback, captchaType): injects, pauses one second,
      then attaches the three handlers (whose decisions are Dispatch). */
  method UseAntiCaptcha(page: Page, key: string, random: string, t: CaptchaType := ReCaptcha)
    modifies page
    ensures page.head == Inject(old(page.head), old(page.body), key, t, random)
    ensures page.trace == old(page.trace) + InjectionScripts(key, t) + [Pause(SettleAfterInjectionMs)]
    ensures page.handlers == old(page.handlers) + AntiCaptchaHandlers
    ensures page.body == old(page.body)
  {
    StartCaptchaSolvingProcess(page, key, t, random);
    page.Issue(Pause(SettleAfterInjectionMs));
    page.AddHandler(PageErrorChannel);
    page.AddHandler(ErrorChannel);
    page.AddHandler(ConsoleChannel);
  }

  /** What PuppeteerSharp's WaitForSelectorAsync does: return the element, return null,
      or throw (a timeout among others). */
  datatype SelectorWait = Appeared | ReturnedNull | WaitThrew(ex: Exception)

  /** (int)TimeSpan.FromMinutes(minutes).TotalMilliseconds. */
  function TimeoutMs(minutes: int32): (ms: int32)
    ensures -35791 <= minutes <= 35791 ==> ms as int == minutes as int * 60000
    ensures minutes > 35791 ==> ms as int == MaxInt32
    ensures minutes < -35791 ==> ms as int == MinInt32
  {
    SaturateToInt32(minutes as int * 60000)
  }

  /** What SolveCaptchaAsync returns or throws once the wait is over: true only for an
      element; an exception of the wait is rethrown only in the throwing mode. */
  function SolveOutcome(wait: SelectorWait, throwIfNotResolved: bool): (r: Result<bool, Exception>)
    ensures r == Ok(true) <==> wait == Appeared
    ensures r.Err? <==> wait.WaitThrew? && throwIfNotResolved
    ensures r.Err? ==> r.error == wait.ex
    ensures !throwIfNotResolved ==> r.Ok?
  {
    match wait
    case Appeared => Ok(true)
    case ReturnedNull => Ok(false)
    case WaitThrew(ex) => if throwIfNotResolved then Err(ex) else Ok(false)
  }

  /** SolveCaptchaAsync(page, key, timeoutInMinutes, throwIfNotResolved, captchaType),
      the outcome of the wait for the solved marker being `wait`. */
  method SolveCaptcha(page: Page, key: string, random: string, wait: SelectorWait,
                      timeoutInMinutes: int32 := 3, throwIfNotResolved: bool := true,
                      t: CaptchaType := ReCaptcha)
    returns (r: Result<bool, Exception>)
    modifies page
    ensures page.head == Inject(old(page.head), old(page.body), key, t, random)
    ensures page.trace == old(page.trace) + InjectionScripts(key, t) + [WaitForSelector(SolvedSelector, WaitOptions(false, Some(TimeoutMs(timeoutInMinutes))))]
    ensures page.body == old(page.body) && page.handlers == old(page.handlers)
    ensures r == SolveOutcome(wait, throwIfNotResolved)
  {
    StartCaptchaSolvingProcess(page, key, t, random);
    var opts := WaitOptions(false, Some(TimeoutMs(timeoutInMinutes)));
    page.Issue(WaitForSelector(SolvedSelector, opts));
    match wait {
      case Appeared =>
        r := Ok(true);
      case ReturnedNull =>
        r := Ok(false);
      case WaitThrew(ex) =>
        if throwIfNotResolved {
          r := Err(ex);
          return;
        }
        r := Ok(false);
    }
  }

  /** The default budget is three minutes, 180000 ms. */
  lemma DefaultTimeout()
    ensures TimeoutMs(3) == 180000
  {
  }
}
