/**
  The slash-command dispatcher (`handleSlackCommand` in main.go): the raw
  command text is matched, case-sensitively and without any word boundary,
  against the keywords "dalle", "gpt" and "code" in that order; the first
  keyword that is a prefix selects the handler, and the rest of the text,
  with surrounding spaces trimmed, becomes the prompt.
 */
module Commands {
  import opened Strings
  import opened Results

  /** The three background handlers a command can be routed to. */
  datatype Handler = ImageHandler | TextHandler | CodeHandler

  /** What a command text asks for. */
  datatype Action =
    | Image(prompt: string)
    | Text(prompt: string)
    | Code(prompt: string)
    | Unknown(text: string)

  /** The keyword that selects each handler: one of the three literals the
      dispatcher tests (`KeywordsAreTheLiterals` shows each is used once). */
  function Keyword(h: Handler): (k: string)
    ensures k in {"dalle", "gpt", "code"}
  {
    match h
    case ImageHandler => "dalle"
    case TextHandler => "gpt"
    case CodeHandler => "code"
  }

  /** The handlers' keywords are exactly the three literals, one each. */
  lemma KeywordsAreTheLiterals()
    ensures {Keyword(ImageHandler), Keyword(TextHandler), Keyword(CodeHandler)} == {"dalle", "gpt", "code"}
    ensures forall g: Handler, h: Handler :: Keyword(g) == Keyword(h) ==> g == h
  {
  }

  /** The action that runs handler `h` on `prompt`. */
  function Route(h: Handler, prompt: string): (a: Action)
    ensures !a.Unknown? && a.prompt == prompt
  {
    match h
    case ImageHandler => Image(prompt)
    case TextHandler => Text(prompt)
    case CodeHandler => Code(prompt)
  }

  /** The handler a routed action runs. */
  function HandlerOf(a: Action): (h: Handler)
    requires !a.Unknown?
    ensures Route(h, a.prompt) == a
  {
    match a
    case Image(_) => ImageHandler
    case Text(_) => TextHandler
    case Code(_) => CodeHandler
  }

  /** The prompt that handler `h` extracts from `cmd`: the text after its
      keyword with surrounding spaces removed. */
  function PromptAfter(h: Handler, cmd: string): (p: string)
    requires HasPrefix(cmd, Keyword(h))
    ensures NoEdgeSpace(p)
    ensures |p| <= |cmd| - |Keyword(h)|
  {
    TrimSpace(TrimPrefix(cmd, Keyword(h)))
  }

  /** The dispatch decision of `handleSlackCommand`. */
  function Dispatch(cmd: string): (a: Action)
    ensures a.Unknown? <==> forall h: Handler :: !HasPrefix(cmd, Keyword(h))
    ensures a.Unknown? ==> a.text == cmd
    ensures !a.Unknown? ==>
      HasPrefix(cmd, Keyword(HandlerOf(a))) && a.prompt == TrimSpace(cmd[|Keyword(HandlerOf(a))|..])
  {
    if HasPrefix(cmd, Keyword(ImageHandler)) then
      Image(TrimSpace(TrimPrefix(cmd, Keyword(ImageHandler))))
    else if HasPrefix(cmd, Keyword(TextHandler)) then
      Text(TrimSpace(TrimPrefix(cmd, Keyword(TextHandler))))
    else if HasPrefix(cmd, Keyword(CodeHandler)) then
      Code(TrimSpace(TrimPrefix(cmd, Keyword(CodeHandler))))
    else
      Unknown(cmd)
  }

  /** No keyword is a prefix of another, so a command text starts with at
      most one of them. */
  lemma KeywordsExclusive(cmd: string, h1: Handler, h2: Handler)
    requires HasPrefix(cmd, Keyword(h1)) && HasPrefix(cmd, Keyword(h2))
    ensures h1 == h2
  {
    assert cmd[0] == Keyword(h1)[0] && cmd[0] == Keyword(h2)[0];
  }

  /** A command goes to handler `h`, with the trimmed remainder as prompt,
      exactly when it starts with `h`'s keyword. */
  lemma DispatchSelects(cmd: string, h: Handler)
    ensures (!Dispatch(cmd).Unknown? && HandlerOf(Dispatch(cmd)) == h) <==> HasPrefix(cmd, Keyword(h))
    ensures HasPrefix(cmd, Keyword(h)) ==> Dispatch(cmd) == Route(h, PromptAfter(h, cmd))
  {
    var a := Dispatch(cmd);
    if HasPrefix(cmd, Keyword(h)) {
      assert !a.Unknown?;
      KeywordsExclusive(cmd, h, HandlerOf(a));
    }
  }

  /** The first handler in `order` whose keyword starts `cmd` wins; this is
      the if/else-if chain of the source written for any keyword order. */
  function DispatchInOrder(order: seq<Handler>, cmd: string): (a: Action)
    ensures a.Unknown? <==> forall i :: 0 <= i < |order| ==> !HasPrefix(cmd, Keyword(order[i]))
  {
    if |order| == 0 then Unknown(cmd)
    else if HasPrefix(cmd, Keyword(order[0])) then Route(order[0], PromptAfter(order[0], cmd))
    else DispatchInOrder(order[1..], cmd)
  }

  /** The source's order is "dalle", "gpt", "code". */
  lemma DispatchIsSourceOrder(cmd: string)
    ensures Dispatch(cmd) == DispatchInOrder([ImageHandler, TextHandler, CodeHandler], cmd)
  {
    var order := [ImageHandler, TextHandler, CodeHandler];
    assert order[1..] == [TextHandler, CodeHandler];
    assert order[1..][1..] == [CodeHandler];
    assert order[1..][1..][1..] == [];
    if !HasPrefix(cmd, Keyword(ImageHandler)) {
      if !HasPrefix(cmd, Keyword(TextHandler)) {
        assert DispatchInOrder(order, cmd) == DispatchInOrder([CodeHandler], cmd);
        assert [CodeHandler][1..] == [];
        assert DispatchInOrder([CodeHandler], cmd) == Dispatch(cmd);
      }
    }
  }

  /** Because the keywords are mutually exclusive, the order in which they
      are tried never changes the action: any order that lists every
      matching handler dispatches exactly as the source does. */
  lemma {:induction false} OrderIrrelevant(order: seq<Handler>, cmd: string)
    requires forall h: Handler :: HasPrefix(cmd, Keyword(h)) ==> h in order
    ensures DispatchInOrder(order, cmd) == Dispatch(cmd)
  {
    if |order| == 0 {
    } else if HasPrefix(cmd, Keyword(order[0])) {
      DispatchSelects(cmd, order[0]);
    } else {
      forall h: Handler | HasPrefix(cmd, Keyword(h))
        ensures h in order[1..]
      {
        assert h in order && h != order[0];
      }
      OrderIrrelevant(order[1..], cmd);
    }
  }

  /** The body of the synchronous HTTP reply: only an unknown command gets
      one, and only when replies to Slack are enabled. */
  function ReplyBody(cmd: string, sendToSlack: bool): (body: string)
    ensures body != [] <==> Dispatch(cmd).Unknown? && sendToSlack
    ensures body != [] ==> body == UnknownCommandReply(cmd)
  {
    if Dispatch(cmd).Unknown? && sendToSlack then UnknownCommandReply(cmd) else []
  }

  /** `Unknown command: '<text>'`, the reply (and log line) for a text that
      matches no keyword. */
  function UnknownCommandReply(text: string): (r: string)
    ensures |r| == |text| + 19
    ensures r[..18] == "Unknown command: '" && r[18..|r| - 1] == text && r[|r| - 1] == '\''
  {
    "Unknown command: '" + text + "'"
  }

  /** The text inside an unknown-command reply, when `r` has that shape. */
  function UnknownCommandText(r: string): (text: Option<string>)
    ensures text.Some? ==> UnknownCommandReply(text.value) == r
  {
    if |r| >= 19 && r[..18] == "Unknown command: '" && r[|r| - 1] == '\'' then
      var t := r[18..|r| - 1];
      assert r == r[..18] + t + [r[|r| - 1]];
      Some(t)
    else None
  }

  /** The reply quotes the command text verbatim: it can be read back. */
  lemma UnknownCommandRoundTrip(text: string)
    ensures UnknownCommandText(UnknownCommandReply(text)) == Some(text)
  {
  }

  /** Example: the prompt is the trimmed text after the keyword. */
  lemma DispatchImageExample()
    ensures Dispatch("dalle a red fox") == Image("a red fox")
  {
    var cmd := "dalle a red fox";
    assert HasPrefix(cmd, Keyword(ImageHandler));
    assert TrimPrefix(cmd, Keyword(ImageHandler)) == " a red fox";
    TrimSpaceCharacterised(" a red fox", 1, 10);
  }

  /** Example: "gpt" routes to text completion. */
  lemma DispatchTextExample()
    ensures Dispatch("gpt explain recursion") == Text("explain recursion")
  {
    var cmd := "gpt explain recursion";
    assert cmd[..5][0] != Keyword(ImageHandler)[0];
    assert HasPrefix(cmd, Keyword(TextHandler));
    assert TrimPrefix(cmd, Keyword(TextHandler)) == " explain recursion";
    TrimSpaceCharacterised(" explain recursion", 1, 18);
  }

  /** Example: there is no word boundary after the keyword. */
  lemma DispatchNoBoundaryExample()
    ensures Dispatch("dallex y") == Image("x y")
  {
    var cmd := "dallex y";
    assert HasPrefix(cmd, Keyword(ImageHandler));
    assert TrimPrefix(cmd, Keyword(ImageHandler)) == "x y";
    TrimSpaceCharacterised("x y", 0, 3);
  }

  /** Example: matching is case-sensitive. */
  lemma DispatchCaseExample()
    ensures Dispatch("DALLE y") == Unknown("DALLE y")
  {
    var cmd := "DALLE y";
    assert cmd[..5][0] != Keyword(ImageHandler)[0];
    assert cmd[..3][0] != Keyword(TextHandler)[0];
    assert cmd[..4][0] != Keyword(CodeHandler)[0];
  }

  /** Example: the empty text matches no keyword. */
  lemma DispatchEmptyExample()
    ensures Dispatch("") == Unknown("")
  {
  }

  /** Example: with replies enabled an unknown text is echoed back, and
      with replies disabled the body is empty. */
  lemma ReplyBodyExample()
    ensures ReplyBody("unknown foo", true) == "Unknown command: 'unknown foo'"
    ensures ReplyBody("unknown foo", false) == []
  {
    var cmd := "unknown foo";
    assert cmd[..5][0] != Keyword(ImageHandler)[0];
    assert cmd[..3][0] != Keyword(TextHandler)[0];
    assert cmd[..4][0] != Keyword(CodeHandler)[0];
    assert Dispatch(cmd).Unknown?;
  }
}
