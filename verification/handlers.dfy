/**
  The three background handlers (`generateImage`, `completeText`,
  `completeCode`) and the request handler that dispatches to them
  (`handleSlackCommand`), as traces of the outside effects they perform.
  The replies of the image and completion services, the outcome of each
  storage call and the fresh object id are inputs, gathered in a `World`.
 */
module Handlers {
  import opened Results
  import opened Strings
  import opened Commands
  import opened Format
  import Config

  /** The completion models the two completion handlers select. */
  datatype Model = GptDavinci | CodexDavinci

  /** The fixed parameters of the service requests. */
  const ImageSize: string := "256x256"
  const ImageCount: nat := 1
  const MaxTokens: nat := 256
  /** The block id of the image block in an image reply. */
  const ImageBlockId: string := "image1"

  /** Text inside a Block Kit block. */
  datatype TextObject = PlainText(text: string) | Markdown(text: string)

  /** The Block Kit blocks the bot sends. */
  datatype Block =
    | ImageBlock(imageUrl: string, altText: string, blockId: string, title: TextObject)
    | Section(text: TextObject)

  /** A webhook message; every reply of the bot is posted in the channel. */
  datatype Message = Message(blocks: seq<Block>, inChannel: bool)

  /** An outside effect, in the order the handler performs it. Storage
      steps record whether the call succeeded. */
  datatype Effect =
    | RequestImage(prompt: string, size: string, count: nat)
    | RequestCompletion(prompt: string, model: Model, maxTokens: nat)
    | Upload(bucket: string, obj: string, payload: string, ok: bool)
    | MakePublic(bucket: string, obj: string, ok: bool)
    | Post(responseUrl: string, msg: Message)

  /** What the outside world answers during one command: the id drawn for
      a new object, the image service's base64 payload, whether the storage
      write and the ACL update succeed, and the first completion choice. */
  datatype World = World(
    id: string,
    image: Outcome<string>,
    writeOk: bool,
    aclOk: bool,
    completion: Outcome<string>)

  /** The inbound slash command: its text and the URL to reply to. */
  datatype SlashCommand = SlashCommand(text: string, responseUrl: string)

  /** What handling a command yields: the synchronous HTTP body and the
      effects of the background task it started. */
  datatype Response = Response(body: string, effects: seq<Effect>)

  /** The reply to an image command: the image at `url`, titled and
      described by the prompt. */
  function ImageMessage(prompt: string, url: string): (m: Message)
    ensures m.inChannel && |m.blocks| == 1
    ensures m.blocks[0] == ImageBlock(url, prompt, ImageBlockId, PlainText(prompt))
  {
    Message([ImageBlock(url, prompt, ImageBlockId, PlainText(prompt))], true)
  }

  /** The reply to a completion command: one markdown section quoting the
      prompt above the completion. */
  function CompletionMessage(prompt: string, completion: string): (m: Message)
    ensures m.inChannel && |m.blocks| == 1 && m.blocks[0].Section?
    ensures m.blocks[0].text == Markdown(CompletionText(prompt, completion))
  {
    Message([Section(Markdown(CompletionText(prompt, completion)))], true)
  }

  /** `generateImage`: request the image; when that fails stop; otherwise
      upload it under a fresh `dalle_<id>.png`, make that object public
      whether or not the upload succeeded, and post its public URL when
      replies are enabled. */
  function GenerateImage(prompt: string, responseUrl: string, bucket: string, send: bool, w: World): (e: seq<Effect>)
    ensures |e| >= 1 && e[0] == RequestImage(prompt, ImageSize, ImageCount)
    ensures w.image.Failed? ==> |e| == 1
    ensures w.image.Ok? ==>
      && |e| == (if send then 4 else 3)
      && e[1] == Upload(bucket, ObjectName(w.id), w.image.value, w.writeOk)
      && e[2] == MakePublic(bucket, ObjectName(w.id), w.aclOk)
    ensures w.image.Ok? && send ==> e[3] == Post(responseUrl, ImageMessage(prompt, PublicUrl(bucket, ObjectName(w.id))))
  {
    [RequestImage(prompt, ImageSize, ImageCount)] +
    match w.image
    case Failed(_) => []
    case Ok(payload) =>
      var obj := ObjectName(w.id);
      [Upload(bucket, obj, payload, w.writeOk), MakePublic(bucket, obj, w.aclOk)] +
      (if send then [Post(responseUrl, ImageMessage(prompt, PublicUrl(bucket, obj)))] else [])
  }

  /** `completeText` and `completeCode`: request a completion from `model`;
      on failure stop, otherwise post the quoted prompt and the first
      choice when replies are enabled. */
  function Complete(prompt: string, model: Model, responseUrl: string, send: bool, w: World): (e: seq<Effect>)
    ensures |e| >= 1 && e[0] == RequestCompletion(prompt, model, MaxTokens)
    ensures |e| == (if w.completion.Ok? && send then 2 else 1)
    ensures |e| == 2 ==> e[1] == Post(responseUrl, CompletionMessage(prompt, w.completion.value))
  {
    [RequestCompletion(prompt, model, MaxTokens)] +
    match w.completion
    case Failed(_) => []
    case Ok(text) => if send then [Post(responseUrl, CompletionMessage(prompt, text))] else []
  }

  /** `handleSlackCommand`: dispatch on the text; a matched command starts
      its handler in the background and returns an empty body; an unknown
      one starts nothing and answers with the unknown-command reply when
      replies are enabled. */
  function HandleSlackCommand(settings: Config.Settings, cmd: SlashCommand, w: World): (r: Response)
    ensures r.body == ReplyBody(cmd.text, settings.sendToSlack)
    ensures Dispatch(cmd.text).Unknown? <==> r.effects == []
  {
    var send := settings.sendToSlack;
    match Dispatch(cmd.text)
    case Image(prompt) => Response([], GenerateImage(prompt, cmd.responseUrl, settings.gcsBucket, send, w))
    case Text(prompt) => Response([], Complete(prompt, GptDavinci, cmd.responseUrl, send, w))
    case Code(prompt) => Response([], Complete(prompt, CodexDavinci, cmd.responseUrl, send, w))
    case Unknown(text) => Response(ReplyBody(text, send), [])
  }

  /** The number of webhook posts in a trace. */
  function Posts(e: seq<Effect>): (n: nat)
    ensures n <= |e|
    ensures n == 0 <==> forall i :: 0 <= i < |e| ==> !e[i].Post?
  {
    if |e| == 0 then 0 else (if e[0].Post? then 1 else 0) + Posts(e[1..])
  }

  /** Posts add up over concatenated traces. */
  lemma {:induction false} PostsAppend(a: seq<Effect>, b: seq<Effect>)
    ensures Posts(a + b) == Posts(a) + Posts(b)
    decreases |a|
  {
    if |a| == 0 {
      assert a + b == b;
    } else {
      assert (a + b)[1..] == a[1..] + b;
      PostsAppend(a[1..], b);
    }
  }

  /** An image command posts once when the image arrives and replies are
      on, and never otherwise. */
  lemma ImagePosts(prompt: string, responseUrl: string, bucket: string, send: bool, w: World)
    ensures Posts(GenerateImage(prompt, responseUrl, bucket, send, w)) == if w.image.Ok? && send then 1 else 0
  {
    var e := GenerateImage(prompt, responseUrl, bucket, send, w);
    if w.image.Ok? {
      assert e == e[..3] + e[3..];
      PostsAppend(e[..3], e[3..]);
      assert Posts(e[..3]) == 0;
      if send {
        assert e[3..] == [e[3]] && e[3..][1..] == [];
      }
    }
  }

  /** A completion command posts once when the completion arrives and
      replies are on, and never otherwise. */
  lemma CompletionPosts(prompt: string, model: Model, responseUrl: string, send: bool, w: World)
    ensures Posts(Complete(prompt, model, responseUrl, send, w)) == if w.completion.Ok? && send then 1 else 0
  {
    var e := Complete(prompt, model, responseUrl, send, w);
    if |e| == 2 {
      assert e[1..] == [e[1]] && e[1..][1..] == [];
    }
  }

  /** Each command produces at most one notification, and none at all
      when replies to Slack are disabled. */
  lemma AtMostOnePost(settings: Config.Settings, cmd: SlashCommand, w: World)
    ensures Posts(HandleSlackCommand(settings, cmd, w).effects) <= 1
    ensures !settings.sendToSlack ==> Posts(HandleSlackCommand(settings, cmd, w).effects) == 0
  {
    var send := settings.sendToSlack;
    match Dispatch(cmd.text)
    case Image(prompt) => ImagePosts(prompt, cmd.responseUrl, settings.gcsBucket, send, w);
    case Text(prompt) => CompletionPosts(prompt, GptDavinci, cmd.responseUrl, send, w);
    case Code(prompt) => CompletionPosts(prompt, CodexDavinci, cmd.responseUrl, send, w);
    case Unknown(_) =>
  }

  /** In an image trace the ACL update comes right after the upload of the
      same object, and any posted image URL is that object's public URL. */
  lemma ImageTraceOrder(prompt: string, responseUrl: string, bucket: string, send: bool, w: World)
    ensures var e := GenerateImage(prompt, responseUrl, bucket, send, w);
      forall j :: 0 <= j < |e| && e[j].MakePublic? ==>
        0 < j && e[j - 1].Upload? && e[j - 1].bucket == e[j].bucket && e[j - 1].obj == e[j].obj
    ensures var e := GenerateImage(prompt, responseUrl, bucket, send, w);
      forall j :: 0 <= j < |e| && e[j].Post? ==>
        exists i :: 0 <= i < j && e[i].Upload? &&
          e[j].msg == ImageMessage(prompt, PublicUrl(e[i].bucket, e[i].obj))
  {
    var e := GenerateImage(prompt, responseUrl, bucket, send, w);
    if w.image.Ok? && send {
      assert e[3].Post? && e[1].Upload?;
    }
  }

  /** The posted image URL reads back as the bucket and object that were
      uploaded, and the object name reads back as the drawn id. */
  lemma ImagePostNamesUpload(prompt: string, responseUrl: string, bucket: string, w: World)
    requires w.image.Ok? && '/' !in bucket
    ensures var e := GenerateImage(prompt, responseUrl, bucket, true, w);
      && UrlLocation(e[3].msg.blocks[0].imageUrl) == Some((e[1].bucket, e[1].obj))
      && ObjectId(e[1].obj) == Some(w.id)
  {
    PublicUrlRoundTrip(bucket, ObjectName(w.id));
    ObjectNameRoundTrip(w.id);
  }

  /** A failed image request writes nothing and posts nothing. */
  lemma ImageFailureStops(prompt: string, responseUrl: string, bucket: string, send: bool, w: World)
    requires w.image.Failed?
    ensures forall i :: 0 <= i < |GenerateImage(prompt, responseUrl, bucket, send, w)| ==>
      GenerateImage(prompt, responseUrl, bucket, send, w)[i].RequestImage?
  {
  }

  /** Storage failures are only logged: whatever the write and ACL calls
      answer, the handler attempts the same steps and posts the same
      message. */
  lemma StorageFailuresDoNotStop(prompt: string, responseUrl: string, bucket: string, send: bool, w: World)
    requires w.image.Ok?
    ensures var e := GenerateImage(prompt, responseUrl, bucket, send, w);
      var e' := GenerateImage(prompt, responseUrl, bucket, send, w.(writeOk := true, aclOk := true));
      |e| == |e'| && e[0] == e'[0] && (send ==> e[3] == e'[3])
  {
  }

  /** A matched command runs exactly its handler's trace: the extracted
      prompt, the command's response URL, the configured bucket (for an
      image) or the handler's model (for a completion), and the configured
      reply switch; the body is empty. */
  lemma MatchedCommandRequestsPrompt(settings: Config.Settings, cmd: SlashCommand, w: World, h: Handler)
    requires HasPrefix(cmd.text, Keyword(h))
    ensures var r := HandleSlackCommand(settings, cmd, w);
      && r.body == []
      && r.effects == match h
        case ImageHandler =>
          GenerateImage(PromptAfter(h, cmd.text), cmd.responseUrl, settings.gcsBucket, settings.sendToSlack, w)
        case TextHandler =>
          Complete(PromptAfter(h, cmd.text), GptDavinci, cmd.responseUrl, settings.sendToSlack, w)
        case CodeHandler =>
          Complete(PromptAfter(h, cmd.text), CodexDavinci, cmd.responseUrl, settings.sendToSlack, w)
  {
    DispatchSelects(cmd.text, h);
  }

  /** A posted completion can be read back into the prompt it quotes and
      the completion, when the prompt is a single line. */
  lemma CompletionPostReadsBack(prompt: string, model: Model, responseUrl: string, w: World)
    requires w.completion.Ok? && '\n' !in prompt
    ensures var e := Complete(prompt, model, responseUrl, true, w);
      |e| == 2 && CompletionParts(e[1].msg.blocks[0].text.text) == Some((prompt, w.completion.value))
  {
    CompletionRoundTrip(prompt, w.completion.value);
  }

  /** Example: "dalle a red fox" with replies on starts the image handler
      on the prompt "a red fox" and answers the HTTP request with no body. */
  lemma RedFoxScenario(settings: Config.Settings, url: string, w: World)
    requires settings.sendToSlack
    ensures HandleSlackCommand(settings, SlashCommand("dalle a red fox", url), w) ==
      Response([], GenerateImage("a red fox", url, settings.gcsBucket, true, w))
  {
    DispatchImageExample();
  }

  /** Example: "gpt explain recursion" starts the text-completion handler
      on the prompt "explain recursion". */
  lemma ExplainRecursionScenario(settings: Config.Settings, url: string, w: World)
    ensures HandleSlackCommand(settings, SlashCommand("gpt explain recursion", url), w) ==
      Response([], Complete("explain recursion", GptDavinci, url, settings.sendToSlack, w))
  {
    DispatchTextExample();
  }

  /** Example: "unknown foo" with replies on starts nothing and echoes the
      text back in the HTTP body. */
  lemma UnknownFooScenario(settings: Config.Settings, url: string, w: World)
    requires settings.sendToSlack
    ensures HandleSlackCommand(settings, SlashCommand("unknown foo", url), w) ==
      Response("Unknown command: 'unknown foo'", [])
  {
    ReplyBodyExample();
  }
}
