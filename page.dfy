/** One browser tab as the core sees it: the elements of the document's <head> and
    <body>, the event handlers the core attached, and the ordered trace of actions
    (navigation, waits, typing, clicks, script evaluation, closing) issued on it.
    The browser itself is not modelled; each PuppeteerSharp call is an entry in the
    trace. */
module BrowserPage {
  import opened Base

  /** A DOM element: its tag, its id attribute ("" when it has none), its innerHTML,
      whether it is styled `display: none`, and the src attribute of a script. */
  datatype Node = Node(tag: string, id: string, innerHtml: string, hidden: bool, src: string)

  /** PuppeteerSharp's WaitUntilNavigation values used by the core. */
  datatype WaitUntil = DOMContentLoaded | Load

  /** WaitForSelectorOptions: Visible, and Timeout in milliseconds (None: the library's
      default; 0: PuppeteerSharp waits without a time limit). */
  datatype WaitOptions = WaitOptions(visible: bool, timeoutMs: Option<int32>)

  /** The page event channels an anti-captcha handler is attached to. */
  datatype Channel = PageErrorChannel | ErrorChannel | ConsoleChannel

  /** One call issued on the page. */
  datatype Action =
    | GoTo(url: string, waitUntil: WaitUntil, timeoutMs: int32)
    | WaitForSelector(selector: string, options: WaitOptions)
    | Pause(ms: int32)                        // page.WaitForTimeoutAsync
    | TypeText(selector: string, text: string)
    | Click(selector: string)
    | Evaluate(script: string)
    | Close

  class Page {
    var head: seq<Node>
    var body: seq<Node>
    var handlers: seq<Channel>
    var trace: seq<Action>

    constructor(head: seq<Node>, body: seq<Node>)
      ensures this.head == head && this.body == body
      ensures handlers == [] && trace == []
    {
      this.head := head;
      this.body := body;
      handlers := [];
      trace := [];
    }

    /** Issues one call on the page: it is appended to the trace and nothing else changes. */
    method Issue(a: Action)
      modifies this
      ensures trace == old(trace) + [a]
      ensures head == old(head) && body == old(body) && handlers == old(handlers)
    {
      trace := trace + [a];
    }

    /** Appends an element to the document's head. */
    method AppendToHead(n: Node)
      modifies this
      ensures head == old(head) + [n]
      ensures body == old(body) && handlers == old(handlers) && trace == old(trace)
    {
      head := head + [n];
    }

    /** Adds an event handler on channel c. */
    method AddHandler(c: Channel)
      modifies this
      ensures handlers == old(handlers) + [c]
      ensures head == old(head) && body == old(body) && trace == old(trace)
    {
      handlers := handlers + [c];
    }
  }
}
