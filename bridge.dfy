/**
  The demo's bridge between the web page and the application. The page
  reports the links it shows as one string, `NavigatedTo:` followed by the
  links separated by commas; the bridge turns it into a request on a queue,
  the application drains the queue into `NewPage` events, and navigation
  requests go back to the page as a script.
*/
module Bridge {
  import opened Wrappers

  /** A request from the page to the application. */
  datatype Request = SpawnNewLinks(links: seq<string>)

  /** An event from the application to the page. */
  datatype PageEvent = NavigateToPage(page: string)

  /** The application event announcing a new page's links. */
  datatype NewPage = NewPage(links: seq<string>)

  // ---------------------------------------------------------------------------
  // Splitting and joining

  /** The number of occurrences of `c` in `s`. */
  function Count(s: string, c: char): nat {
    if s == [] then 0 else (if s[0] == c then 1 else 0) + Count(s[1..], c)
  }

  /**
    The pieces of `s` between occurrences of `sep`, the empty ones included:
    an empty string is one empty piece.
  */
  function Split(s: string, sep: char): (parts: seq<string>)
    ensures |parts| >= 1
  {
    if s == [] then [[]]
    else
      var rest := Split(s[1..], sep);
      if s[0] == sep then [[]] + rest else [[s[0]] + rest[0]] + rest[1..]
  }

  /** The pieces in order, with `sep` between neighbours. */
  function Join(parts: seq<string>, sep: char): string
    requires |parts| >= 1
  {
    if |parts| == 1 then parts[0] else parts[0] + [sep] + Join(parts[1..], sep)
  }

  /** There is one piece more than there are separators. */
  lemma {:induction false} SplitCount(s: string, sep: char)
    ensures |Split(s, sep)| == Count(s, sep) + 1
  {
    if s != [] {
      SplitCount(s[1..], sep);
    }
  }

  /** No piece contains the separator. */
  lemma {:induction false} SplitPiecesClean(s: string, sep: char)
    ensures forall i | 0 <= i < |Split(s, sep)| :: sep !in Split(s, sep)[i]
  {
    if s != [] {
      SplitPiecesClean(s[1..], sep);
    }
  }

  /** Joining the pieces gives back the string. */
  lemma {:induction false} JoinSplit(s: string, sep: char)
    ensures Join(Split(s, sep), sep) == s
  {
    if s != [] {
      var rest := Split(s[1..], sep);
      JoinSplit(s[1..], sep);
      if s[0] == sep {
        assert Split(s, sep)[1..] == rest;
      } else {
        var parts := Split(s, sep);
        if |rest| == 1 {
          assert parts == [[s[0]] + rest[0]];
        } else {
          assert parts[1..] == rest[1..];
          assert Join(rest, sep) == rest[0] + [sep] + Join(rest[1..], sep);
        }
      }
    }
  }

  /** Splitting a join of separator-free pieces gives back the pieces. */
  lemma {:induction false} SplitJoin(parts: seq<string>, sep: char)
    requires |parts| >= 1
    requires forall i | 0 <= i < |parts| :: sep !in parts[i]
    ensures Split(Join(parts, sep), sep) == parts
  {
    if |parts| == 1 {
      SplitPlain(parts[0], sep);
    } else {
      SplitJoin(parts[1..], sep);
      SplitPrefix(parts[0], Join(parts[1..], sep), sep);
      assert [parts[0]] + parts[1..] == parts;
    }
  }

  /** A string without the separator is one piece. */
  lemma {:induction false} SplitPlain(s: string, sep: char)
    requires sep !in s
    ensures Split(s, sep) == [s]
  {
    if s != [] {
      SplitPlain(s[1..], sep);
      assert [s[0]] + s[1..] == s;
    }
  }

  /** A separator-free head followed by a separator becomes the first piece. */
  lemma {:induction false} SplitPrefix(head: string, tail: string, sep: char)
    requires sep !in head
    ensures Split(head + [sep] + tail, sep) == [head] + Split(tail, sep)
  {
    if head == [] {
      assert head + [sep] + tail == [sep] + tail;
      assert ([sep] + tail)[1..] == tail;
    } else {
      assert (head + [sep] + tail)[1..] == head[1..] + [sep] + tail;
      SplitPrefix(head[1..], tail, sep);
      assert [head[0]] + head[1..] == head;
    }
  }

  // ---------------------------------------------------------------------------
  // Page to application

  const Prefix: string := "NavigatedTo:"

  /** The request a page message makes: its links when it carries the prefix, none otherwise. */
  function ParseRequest(message: string): (r: Option<Request>)
    ensures r.Some? <==> Prefix <= message
  {
    if Prefix <= message then Some(SpawnNewLinks(Split(message[|Prefix|..], ','))) else None
  }

  /**
    A recognised message yields one link per comma plus one, none containing
    a comma, which joined with commas give back the message after the prefix.
  */
  lemma ParsedLinks(message: string)
    requires Prefix <= message
    ensures var links := ParseRequest(message).value.links;
      && |links| == Count(message[|Prefix|..], ',') + 1
      && (forall i | 0 <= i < |links| :: ',' !in links[i])
      && Join(links, ',') == message[|Prefix|..]
  {
    var rest := message[|Prefix|..];
    SplitCount(rest, ',');
    SplitPiecesClean(rest, ',');
    JoinSplit(rest, ',');
  }

  /** The message a page sends for its links parses back to exactly those links. */
  lemma ParseMessage(links: seq<string>)
    requires |links| >= 1 && forall i | 0 <= i < |links| :: ',' !in links[i]
    ensures ParseRequest(Prefix + Join(links, ',')) == Some(SpawnNewLinks(links))
  {
    var message := Prefix + Join(links, ',');
    assert message[|Prefix|..] == Join(links, ',');
    SplitJoin(links, ',');
  }

  /** The queue from the page's thread to the application. */
  class Channel {
    var pending: seq<Request>

    constructor ()
      ensures pending == []
    {
      pending := [];
    }
  }

  /** Handles one message from the page: a recognised one queues its request, any other queues nothing. */
  method PageMessage(channel: Channel, message: string)
    modifies channel
    ensures channel.pending == old(channel.pending) + (if Prefix <= message then [ParseRequest(message).value] else [])
  {
    if Prefix <= message {
      var links := Split(message[|Prefix|..], ',');
      channel.pending := channel.pending + [SpawnNewLinks(links)];
    }
  }

  /** The application state the bridge touches: the receiving end of the queue, and the page events. */
  class AppWorld {
    var receiver: Option<Channel>
    var pages: seq<NewPage>

    constructor (receiver: Channel)
      ensures this.receiver == Some(receiver) && pages == []
    {
      this.receiver := Some(receiver);
      pages := [];
    }
  }

  /** The page events for the requests, in order. */
  function Pages(requests: seq<Request>): (pages: seq<NewPage>)
    ensures |pages| == |requests|
    ensures forall i | 0 <= i < |requests| :: pages[i].links == requests[i].links
  {
    if requests == [] then [] else [NewPage(requests[0].links)] + Pages(requests[1..])
  }

  lemma PagesAppend(requests: seq<Request>, request: Request)
    ensures Pages(requests + [request]) == Pages(requests) + [NewPage(request.links)]
  {
    if requests != [] {
      assert (requests + [request])[1..] == requests[1..] + [request];
      PagesAppend(requests[1..], request);
    }
  }

  /**
    Takes the receiver out of the world, turns every pending request into a
    page event in arrival order, and puts the receiver back.
  */
  method ReadRequests(world: AppWorld)
    requires world.receiver.Some?
    modifies world, world.receiver.value
    ensures world.receiver == old(world.receiver)
    ensures world.receiver.value.pending == []
    ensures world.pages == old(world.pages) + Pages(old(world.receiver.value.pending))
  {
    var receiver := world.receiver.value;
    world.receiver := None;
    ghost var drained: seq<Request> := [];
    ghost var pending0 := receiver.pending;
    while receiver.pending != []
      invariant world.receiver.None?
      invariant pending0 == drained + receiver.pending
      invariant world.pages == old(world.pages) + Pages(drained)
      decreases |receiver.pending|
    {
      var request := receiver.pending[0];
      var rest := receiver.pending[1..];
      assert drained + receiver.pending == (drained + [request]) + rest;
      receiver.pending := rest;
      PagesAppend(drained, request);
      drained := drained + [request];
      world.pages := world.pages + [NewPage(request.links)];
    }
    assert drained == pending0;
    world.receiver := Some(receiver);
  }

  // ---------------------------------------------------------------------------
  // Application to page

  /** One character as a string literal shows it: quotes, backslashes and line breaks escaped. */
  function EscapeChar(c: char): string {
    if c == '"' then ['\\', '"']
    else if c == '\\' then ['\\', '\\']
    else if c == '\n' then ['\\', 'n']
    else if c == '\r' then ['\\', 'r']
    else if c == '\t' then ['\\', 't']
    else if c == '\0' then ['\\', '0']
    else [c]
  }

  function Escape(s: string): string {
    if s == [] then [] else EscapeChar(s[0]) + Escape(s[1..])
  }

  /** `s` as a double-quoted string literal. */
  function Quote(s: string): string {
    ['"'] + Escape(s) + ['"']
  }

  /** The character an escape letter stands for. */
  function Unescaped(c: char): Option<char> {
    if c == '"' then Some('"')
    else if c == '\\' then Some('\\')
    else if c == 'n' then Some('\n')
    else if c == 'r' then Some('\r')
    else if c == 't' then Some('\t')
    else if c == '0' then Some('\0')
    else None
  }

  /** Reads the body of a string literal back; a bare quote or a stray backslash is malformed. */
  function Unescape(s: string): Option<string> {
    if s == [] then Some([])
    else if s[0] == '"' then None
    else if s[0] == '\\' then
      if |s| < 2 || Unescaped(s[1]).None? then None
      else match Unescape(s[2..])
        case None => None
        case Some(rest) => Some([Unescaped(s[1]).value] + rest)
    else
      match Unescape(s[1..])
      case None => None
      case Some(rest) => Some([s[0]] + rest)
  }

  /** Reading back an escaped character puts the character in front of what follows. */
  lemma UnescapeEscapeChar(c: char, t: string)
    ensures Unescape(EscapeChar(c) + t) == if Unescape(t).Some? then Some([c] + Unescape(t).value) else None
  {
    var e := EscapeChar(c);
    if |e| == 2 {
      assert (e + t)[0] == '\\' && Unescaped((e + t)[1]) == Some(c);
      assert (e + t)[2..] == t;
    } else {
      assert (e + t)[0] == c;
      assert (e + t)[1..] == t;
    }
  }

  /** The literal reads back as the string it was made from. */
  lemma {:induction false} UnescapeEscape(s: string)
    ensures Unescape(Escape(s)) == Some(s)
  {
    if s != [] {
      UnescapeEscape(s[1..]);
      UnescapeEscapeChar(s[0], Escape(s[1..]));
      assert [s[0]] + s[1..] == s;
    }
  }

  /** The script that sends the page to `page`; the page's address reads back from it. */
  function Command(event: PageEvent): (script: string)
    ensures var prefix := "window.location.assign(\"";
      && prefix <= script && |script| >= |prefix| + 2 && script[|script| - 2..] == "\")"
      && Unescape(script[|prefix|..|script| - 2]) == Some(event.page)
  {
    var prefix := "window.location.assign(\"";
    var script := "window.location.assign(" + Quote(event.page) + ")";
    assert script == prefix + Escape(event.page) + "\")";
    assert script[|prefix|..|script| - 2] == Escape(event.page);
    UnescapeEscape(event.page);
    script
  }

  /** The page's scripting interface: every script it was asked to run, in order. */
  class Webview {
    var scripts: seq<string>

    constructor ()
      ensures scripts == []
    {
      scripts := [];
    }
  }

  function Commands(events: seq<PageEvent>): (scripts: seq<string>)
    ensures |scripts| == |events|
    ensures forall i | 0 <= i < |events| :: scripts[i] == Command(events[i])
  {
    if events == [] then [] else [Command(events[0])] + Commands(events[1..])
  }

  /** Runs each pending page event's script, in order. */
  method EmitEvents(webview: Webview, events: seq<PageEvent>)
    modifies webview
    ensures webview.scripts == old(webview.scripts) + Commands(events)
  {
    var i := 0;
    while i < |events|
      invariant 0 <= i <= |events|
      invariant webview.scripts == old(webview.scripts) + Commands(events[..i])
    {
      assert Commands(events[..i + 1]) == Commands(events[..i]) + [Command(events[i])];
      webview.scripts := webview.scripts + [Command(events[i])];
      i := i + 1;
    }
    assert events[..i] == events;
  }
}
