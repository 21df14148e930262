/**
  The strings the handlers build: the storage object name of a generated
  image, its public URL, and the text of a completion message. Each comes
  with the parser that reads its parts back, so that the shape of the
  string is pinned down by a round trip rather than by its definition.
 */
module Format {
  import opened Strings
  import opened Results

  const ObjectPrefix: string := "dalle_"
  const ObjectSuffix: string := ".png"
  const StorageHost: string := "https://storage.googleapis.com/"

  /** `s` ends with `suffix`. */
  predicate HasSuffix(s: string, suffix: string) {
    |suffix| <= |s| && s[|s| - |suffix|..] == suffix
  }

  /** Index of the first `c` in `s`, or `|s|` when there is none. */
  function IndexOf(s: string, c: char): (i: nat)
    ensures i <= |s|
    ensures i < |s| ==> s[i] == c
    ensures forall k :: 0 <= k < i ==> s[k] != c
  {
    if |s| == 0 || s[0] == c then 0 else 1 + IndexOf(s[1..], c)
  }

  /** The first `c` of `head + [c] + rest` is the separator when `head`
      has none. */
  lemma {:induction false} IndexOfSplit(head: string, c: char, rest: string)
    requires c !in head
    ensures IndexOf(head + [c] + rest, c) == |head|
    decreases |head|
  {
    var s := head + [c] + rest;
    if |head| > 0 {
      assert s[0] == head[0] && s[1..] == head[1..] + [c] + rest;
      IndexOfSplit(head[1..], c, rest);
    }
  }

  /** The object name `dalle_<id>.png` under which an image is stored;
      the id is the random identifier drawn for this image. */
  function ObjectName(id: string): (name: string)
    ensures HasPrefix(name, ObjectPrefix) && HasSuffix(name, ObjectSuffix)
    ensures |name| == |ObjectPrefix| + |id| + |ObjectSuffix|
    ensures name[|ObjectPrefix|..|name| - |ObjectSuffix|] == id
  {
    ObjectPrefix + id + ObjectSuffix
  }

  /** The id inside an object name, when the name has the image shape. */
  function ObjectId(name: string): (id: Option<string>)
    ensures id.Some? <==> HasPrefix(name, ObjectPrefix) && HasSuffix(name, ObjectSuffix) && |name| >= 10
    ensures id.Some? ==> ObjectName(id.value) == name
  {
    if |name| >= |ObjectPrefix| + |ObjectSuffix| && HasPrefix(name, ObjectPrefix) && HasSuffix(name, ObjectSuffix) then
      var id := name[|ObjectPrefix|..|name| - |ObjectSuffix|];
      assert name == name[..|ObjectPrefix|] + id + name[|name| - |ObjectSuffix|..];
      Some(id)
    else None
  }

  /** Reading the id back out of an object name gives the id it was built from. */
  lemma ObjectNameRoundTrip(id: string)
    ensures ObjectId(ObjectName(id)) == Some(id)
  {
  }

  /** Distinct ids give distinct object names, so a fresh id never names an
      object already written. */
  lemma ObjectNameInjective(id1: string, id2: string)
    requires ObjectName(id1) == ObjectName(id2)
    ensures id1 == id2
  {
    ObjectNameRoundTrip(id1);
    ObjectNameRoundTrip(id2);
  }

  /** The public URL `https://storage.googleapis.com/<bucket>/<object>`. */
  function PublicUrl(bucket: string, obj: string): (url: string)
    ensures HasPrefix(url, StorageHost)
    ensures |url| == |StorageHost| + |bucket| + 1 + |obj|
    ensures url[|StorageHost|..|StorageHost| + |bucket|] == bucket
    ensures url[|StorageHost| + |bucket|] == '/'
    ensures url[|StorageHost| + |bucket| + 1..] == obj
  {
    StorageHost + bucket + "/" + obj
  }

  /** The bucket and object a public URL points at: the path is split at its
      first '/'. */
  function UrlLocation(url: string): (loc: Option<(string, string)>)
    ensures loc.Some? ==> PublicUrl(loc.value.0, loc.value.1) == url
    ensures loc.Some? ==> '/' !in loc.value.0
  {
    if HasPrefix(url, StorageHost) then
      var path := url[|StorageHost|..];
      var i := IndexOf(path, '/');
      if i < |path| then
        var bucket, obj := path[..i], path[i + 1..];
        assert path == bucket + "/" + obj;
        assert url == url[..|StorageHost|] + path;
        Some((bucket, obj))
      else None
    else None
  }

  /** Bucket names contain no '/', and for such buckets the URL names the
      bucket and object it was built from. */
  lemma {:induction false} PublicUrlRoundTrip(bucket: string, obj: string)
    requires '/' !in bucket
    ensures UrlLocation(PublicUrl(bucket, obj)) == Some((bucket, obj))
  {
    var url := PublicUrl(bucket, obj);
    var path := url[|StorageHost|..];
    assert path == bucket + "/" + obj;
    IndexOfSplit(bucket, '/', obj);
  }

  /** The public URL of an image object spelled out in full. */
  lemma ImageUrlShape(bucket: string, id: string)
    ensures PublicUrl(bucket, ObjectName(id)) ==
      "https://storage.googleapis.com/" + bucket + "/dalle_" + id + ".png"
  {
    var prefix := StorageHost + bucket;
    assert "/dalle_" == "/" + ObjectPrefix;
    assert PublicUrl(bucket, ObjectName(id)) == prefix + "/" + (ObjectPrefix + id + ObjectSuffix);
    assert prefix + "/" + (ObjectPrefix + id + ObjectSuffix) == prefix + ("/" + ObjectPrefix) + id + ObjectSuffix;
  }

  /** The markdown text of a completion reply: the prompt as a quote line
      (`>prompt`), a newline, then the completion. */
  function CompletionText(prompt: string, completion: string): (text: string)
    ensures |text| == |prompt| + |completion| + 2
    ensures text[0] == '>' && text[1..|prompt| + 1] == prompt
    ensures text[|prompt| + 1] == '\n' && text[|prompt| + 2..] == completion
  {
    ">" + prompt + "\n" + completion
  }

  /** The quoted prompt and the completion of a reply text, split at its
      first newline. */
  function CompletionParts(text: string): (parts: Option<(string, string)>)
    ensures parts.Some? ==> CompletionText(parts.value.0, parts.value.1) == text
    ensures parts.Some? ==> '\n' !in parts.value.0
  {
    if |text| > 0 && text[0] == '>' then
      var body := text[1..];
      var i := IndexOf(body, '\n');
      if i < |body| then
        var prompt, completion := body[..i], body[i + 1..];
        assert body == prompt + "\n" + completion;
        assert text == [text[0]] + body;
        Some((prompt, completion))
      else None
    else None
  }

  /** A one-line prompt and its completion can be read back from the reply. */
  lemma {:induction false} CompletionRoundTrip(prompt: string, completion: string)
    requires '\n' !in prompt
    ensures CompletionParts(CompletionText(prompt, completion)) == Some((prompt, completion))
  {
    var text := CompletionText(prompt, completion);
    assert text[1..] == prompt + "\n" + completion;
    IndexOfSplit(prompt, '\n', completion);
  }
}
