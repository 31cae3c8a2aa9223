/**
 * The OpenAI-style chat message model, the `data:` URL split, and the
 * translation of a message list into the Claude shape: the first message
 * becomes the system prompt, and every `image_url` content part of the
 * remaining messages is rewritten into a base64 `image` part.
 */
module Messages {
  import opened Common

  /** The `source` dict of a Claude image part. */
  datatype ImageSource = ImageSource(sourceType: string, mediaType: string, data: string)

  /**
   * One content-part dict: its "type" tag and the keys the translation reads
   * or writes. `imageUrl` is `content["image_url"]["url"]` when both keys are
   * present; an absent key is `None`.
   */
  datatype ContentPart = ContentPart(
    partType: string,
    text: Option<string>,
    imageUrl: Option<string>,
    source: Option<ImageSource>)

  /** A message's content is either a string, or a list of parts. */
  datatype Content = Text(value: string) | Parts(parts: seq<ContentPart>)

  datatype Message = Message(role: string, content: Content)

  // ---------------------------------------------------------------------
  // str.split with a one-character separator
  // ---------------------------------------------------------------------

  /** The index of the first `c` in `s`, or `|s|` when there is none. */
  function IndexOf(s: string, c: char): (i: nat)
    ensures i <= |s|
    ensures i < |s| ==> s[i] == c
    ensures forall k :: 0 <= k < i ==> s[k] != c
  {
    if s == [] then 0 else if s[0] == c then 0 else 1 + IndexOf(s[1..], c)
  }

  lemma IndexOfAbsent(s: string, c: char)
    ensures IndexOf(s, c) == |s| <==> c !in s
  {
    if IndexOf(s, c) < |s| {
      assert s[IndexOf(s, c)] == c;
    }
  }

  lemma IndexOfFirst(a: string, c: char, b: string)
    requires c !in a
    ensures IndexOf(a + [c] + b, c) == |a|
  {
    var s := a + [c] + b;
    assert s[|a|] == c;
    assert forall k :: 0 <= k < |a| ==> s[k] == a[k];
  }

  /** Python's `s.split(sep)`: the pieces between successive separators. */
  function Split(s: string, sep: char): (pieces: seq<string>)
    ensures |pieces| >= 1
    ensures forall k :: 0 <= k < |pieces| ==> sep !in pieces[k]
    ensures (|pieces| == 1) <==> sep !in s
    ensures pieces[0] == s[..IndexOf(s, sep)]
    decreases |s|
  {
    var i := IndexOf(s, sep);
    IndexOfAbsent(s, sep);
    if i == |s| then [s] else [s[..i]] + Split(s[i + 1..], sep)
  }

  /** `sep.join(pieces)`. */
  function Join(pieces: seq<string>, sep: char): (s: string)
    requires |pieces| >= 1
  {
    if |pieces| == 1 then pieces[0] else pieces[0] + [sep] + Join(pieces[1..], sep)
  }

  /** A string is the text before index `i`, the character at `i`, and the text after. */
  lemma AroundIndex(s: string, i: nat)
    requires i < |s|
    ensures s == s[..i] + [s[i]] + s[i + 1..]
  {
  }

  lemma {:induction false} SplitThenJoin(s: string, sep: char)
    ensures Join(Split(s, sep), sep) == s
    decreases |s|
  {
    var i := IndexOf(s, sep);
    if i < |s| {
      var tail := s[i + 1..];
      calc {
        Join(Split(s, sep), sep);
      == { assert Split(s, sep) == [s[..i]] + Split(tail, sep); }
        Join([s[..i]] + Split(tail, sep), sep);
      == { assert ([s[..i]] + Split(tail, sep))[1..] == Split(tail, sep); }
        s[..i] + [sep] + Join(Split(tail, sep), sep);
      == { SplitThenJoin(tail, sep); }
        s[..i] + [sep] + tail;
      == { AroundIndex(s, i); }
        s;
      }
    } else {
      IndexOfAbsent(s, sep);
    }
  }

  lemma {:induction false} JoinThenSplit(pieces: seq<string>, sep: char)
    requires |pieces| >= 1
    requires forall k :: 0 <= k < |pieces| ==> sep !in pieces[k]
    ensures Split(Join(pieces, sep), sep) == pieces
  {
    if |pieces| == 1 {
      SplitNoSeparator(pieces[0], sep);
    } else {
      var rest := Join(pieces[1..], sep);
      assert Join(pieces, sep) == pieces[0] + [sep] + rest;
      SplitAtFirst(pieces[0], sep, rest);
      JoinThenSplit(pieces[1..], sep);
      assert pieces == [pieces[0]] + pieces[1..];
    }
  }

  /** Splitting `a + [sep] + b` where `a` has no separator: `a` is the first piece, the rest come from `b`. */
  lemma SplitAtFirst(a: string, sep: char, b: string)
    requires sep !in a
    ensures Split(a + [sep] + b, sep) == [a] + Split(b, sep)
  {
    var s := a + [sep] + b;
    IndexOfFirst(a, sep, b);
    IndexOfAbsent(s, sep);
    assert s[..|a|] == a;
    assert s[|a| + 1..] == b;
  }

  lemma SplitNoSeparator(s: string, sep: char)
    requires sep !in s
    ensures Split(s, sep) == [s]
  {
    IndexOfAbsent(s, sep);
  }

  // ---------------------------------------------------------------------
  // data:<media-type>;base64,<payload>
  // ---------------------------------------------------------------------

  datatype DataUrl = DataUrl(mediaType: string, data: string)

  /** The text before the first `;` of a URL: `url.split(";")[0]`. */
  function HeadSegment(url: string): (head: string)
    ensures head <= url && ';' !in head
    ensures |head| < |url| ==> url[|head|] == ';'
  {
    Split(url, ';')[0]
  }

  /** `url.split(";")[0].split(":")[1]`; the index fails when the head segment has no `:`. */
  function MediaTypeOf(url: string): (r: Result<string>)
    ensures r.Err? <==> ':' !in HeadSegment(url)
    ensures r.Err? ==> r.error == IndexError
    ensures r.Ok? ==> ':' !in r.value && ';' !in r.value
  {
    var pieces := Split(HeadSegment(url), ':');
    if |pieces| < 2 then Err(IndexError) else Ok(pieces[1])
  }

  /** `url.split(",")[1]`; the index fails when the URL has no `,`. */
  function PayloadOf(url: string): (r: Result<string>)
    ensures r.Err? <==> ',' !in url
    ensures r.Err? ==> r.error == IndexError
    ensures r.Ok? ==> ',' !in r.value
  {
    var pieces := Split(url, ',');
    if |pieces| < 2 then Err(IndexError) else Ok(pieces[1])
  }

  /** Both halves of the split, media type first, as the translation evaluates them. */
  function ParseDataUrl(url: string): (r: Result<DataUrl>)
    ensures r.Err? <==> ':' !in HeadSegment(url) || ',' !in url
    ensures r.Err? ==> r.error == IndexError
  {
    match MediaTypeOf(url)
    case Err(e) => Err(e)
    case Ok(mediaType) =>
      match PayloadOf(url)
      case Err(e) => Err(e)
      case Ok(data) => Ok(DataUrl(mediaType, data))
  }

  /** The data URL a client builds from a media type and a base64 payload. */
  function FormatDataUrl(mediaType: string, data: string): (url: string)
  {
    "data:" + mediaType + ";base64," + data
  }

  lemma HeadSegmentOfFormat(mediaType: string, data: string)
    requires ';' !in mediaType
    ensures HeadSegment(FormatDataUrl(mediaType, data)) == "data:" + mediaType
  {
    var head := "data:" + mediaType;
    var rest := "base64," + data;
    assert FormatDataUrl(mediaType, data) == head + [';'] + rest;
    assert ';' !in head;
    SplitAtFirst(head, ';', rest);
  }

  lemma MediaTypeOfFormat(mediaType: string, data: string)
    requires ':' !in mediaType && ';' !in mediaType
    ensures MediaTypeOf(FormatDataUrl(mediaType, data)) == Ok(mediaType)
  {
    HeadSegmentOfFormat(mediaType, data);
    var head := "data:" + mediaType;
    assert head == "data" + [':'] + mediaType;
    SplitAtFirst("data", ':', mediaType);
    SplitNoSeparator(mediaType, ':');
    assert Split(head, ':') == ["data", mediaType];
  }

  lemma PayloadOfFormat(mediaType: string, data: string)
    requires ',' !in mediaType && ',' !in data
    ensures PayloadOf(FormatDataUrl(mediaType, data)) == Ok(data)
  {
    var prefix := "data:" + mediaType + ";base64";
    assert FormatDataUrl(mediaType, data) == prefix + [','] + data;
    assert ',' !in prefix;
    SplitAtFirst(prefix, ',', data);
    SplitNoSeparator(data, ',');
  }

  /**
   * Splitting a well-formed data URL gives back the media type and the
   * payload it was built from (base64 has no `,`; a media type has no `:`,
   * `;` or `,`).
   */
  lemma ParseFormatRoundTrip(mediaType: string, data: string)
    requires ':' !in mediaType && ';' !in mediaType && ',' !in mediaType
    requires ',' !in data
    ensures ParseDataUrl(FormatDataUrl(mediaType, data)) == Ok(DataUrl(mediaType, data))
  {
    MediaTypeOfFormat(mediaType, data);
    PayloadOfFormat(mediaType, data);
  }

  /** The example in the source's comment. */
  lemma ParsePngExample()
    ensures ParseDataUrl("data:image/png;base64,AAAA") == Ok(DataUrl("image/png", "AAAA"))
  {
    assert FormatDataUrl("image/png", "AAAA") == "data:image/png;base64,AAAA";
    ParseFormatRoundTrip("image/png", "AAAA");
  }

  /** A URL with no `,` fails. */
  lemma ParseNoCommaExample()
    ensures ParseDataUrl("data:image/png;base64") == Err(IndexError)
  {
    assert ',' !in "data:image/png;base64";
  }

  /** A URL whose text before the first `;` has no `:` fails. */
  lemma ParseNoColonExample()
    ensures ParseDataUrl("image/png;base64,AAAA") == Err(IndexError)
  {
    var url := "image/png;base64,AAAA";
    assert ':' !in "image/png" && ';' !in "image/png";
    assert url == "image/png" + [';'] + "base64,AAAA";
    SplitAtFirst("image/png", ';', "base64,AAAA");
    assert HeadSegment(url) == "image/png";
  }

  // ---------------------------------------------------------------------
  // Translation of content parts and messages
  // ---------------------------------------------------------------------

  /**
   * One content part as the Claude adapters leave it: an `image_url` part is
   * retagged `image`, loses its `image_url` key and gains a base64 `source`;
   * any other part is left as it is.
   */
  function TranslatePart(p: ContentPart): (r: Result<ContentPart>)
    ensures p.partType != "image_url" ==> r == Ok(p)
    ensures p.partType == "image_url" && p.imageUrl.None? ==> r == Err(KeyError)
    ensures p.partType == "image_url" && p.imageUrl.Some? ==>
              (r.Ok? <==> ParseDataUrl(p.imageUrl.value).Ok?)
    ensures r.Ok? && p.partType == "image_url" ==>
              && r.value.partType == "image"
              && r.value.imageUrl.None?
              && r.value.source.Some?
              && r.value.source.value.sourceType == "base64"
              && r.value.text == p.text
    ensures r.Ok? ==> r.value.partType != "image_url"
  {
    if p.partType != "image_url" then Ok(p)
    else
      match p.imageUrl
      case None => Err(KeyError)
      case Some(url) =>
        match ParseDataUrl(url)
        case Err(e) => Err(e)
        case Ok(parsed) =>
          Ok(p.(partType := "image", imageUrl := None,
                source := Some(ImageSource("base64", parsed.mediaType, parsed.data))))
  }

  /** An image part whose URL is well formed gets exactly the media type and payload it carried. */
  lemma TranslateWellFormedImage(p: ContentPart, mediaType: string, data: string)
    requires p.partType == "image_url" && p.imageUrl == Some(FormatDataUrl(mediaType, data))
    requires ':' !in mediaType && ';' !in mediaType && ',' !in mediaType && ',' !in data
    ensures TranslatePart(p).Ok?
    ensures TranslatePart(p).value.source == Some(ImageSource("base64", mediaType, data))
  {
    ParseFormatRoundTrip(mediaType, data);
  }

  /**
   * Applying `f` to every element left to right, stopping at the first
   * failure (a Python loop that raises out of its first bad element).
   */
  function MapAll<A, B>(f: A -> Result<B>, xs: seq<A>): (r: Result<seq<B>>)
    ensures r.Ok? <==> forall k :: 0 <= k < |xs| ==> f(xs[k]).Ok?
    ensures r.Ok? ==> |r.value| == |xs|
    ensures r.Ok? ==> forall k :: 0 <= k < |xs| ==> f(xs[k]).value == r.value[k]
  {
    if xs == [] then Ok([])
    else
      match f(xs[0])
      case Err(e) => Err(e)
      case Ok(y) =>
        match MapAll(f, xs[1..])
        case Err(e) => Err(e)
        case Ok(ys) =>
          assert forall k :: 1 <= k < |xs| ==> xs[k] == xs[1..][k - 1];
          Ok([y] + ys)
  }

  /** When every element succeeds, the mapped list is their results in order. */
  lemma {:induction false} MapAllAllOk<A, B>(f: A -> Result<B>, xs: seq<A>, ys: seq<B>)
    requires |xs| == |ys|
    requires forall k :: 0 <= k < |xs| ==> f(xs[k]) == Ok(ys[k])
    ensures MapAll(f, xs) == Ok(ys)
  {
    if xs != [] {
      assert forall k :: 0 <= k < |xs| - 1 ==> xs[1..][k] == xs[k + 1] && ys[1..][k] == ys[k + 1];
      MapAllAllOk(f, xs[1..], ys[1..]);
      assert ys == [ys[0]] + ys[1..];
    }
  }

  /** The first failing element decides the error. */
  lemma {:induction false} MapAllFirstError<A, B>(f: A -> Result<B>, xs: seq<A>, i: nat)
    requires i < |xs|
    requires forall k :: 0 <= k < i ==> f(xs[k]).Ok?
    requires f(xs[i]).Err?
    ensures MapAll(f, xs) == Err(f(xs[i]).error)
  {
    if i > 0 {
      assert forall k :: 0 <= k < i - 1 ==> xs[1..][k] == xs[k + 1];
      MapAllFirstError(f, xs[1..], i - 1);
    }
  }

  /** One message: string content is left alone, list content has every part translated. */
  function TranslateMessage(m: Message): (r: Result<Message>)
    ensures m.content.Text? ==> r == Ok(m)
    ensures r.Ok? ==> r.value.role == m.role && r.value.content.Text? == m.content.Text?
    ensures r.Ok? && m.content.Parts? ==>
              && |r.value.content.parts| == |m.content.parts|
              && forall k :: 0 <= k < |m.content.parts| ==>
                   TranslatePart(m.content.parts[k]) == Ok(r.value.content.parts[k])
  {
    match m.content
    case Text(_) => Ok(m)
    case Parts(ps) =>
      match MapAll(TranslatePart, ps)
      case Err(e) => Err(e)
      case Ok(qs) => Ok(m.(content := Parts(qs)))
  }

  lemma TranslateListMessage(m: Message, qs: seq<ContentPart>)
    requires m.content.Parts? && MapAll(TranslatePart, m.content.parts) == Ok(qs)
    ensures TranslateMessage(m) == Ok(m.(content := Parts(qs)))
  {
  }

  /** What the Claude adapters send: the system prompt and the translated turns. */
  datatype ClaudeInput = ClaudeInput(system: Content, messages: seq<Message>)

  /**
   * The translation of a whole message list: `messages[0]`'s content is the
   * system prompt, and `messages[1:]` are translated one by one; an empty
   * list has no `messages[0]`.
   */
  function ToClaude(messages: seq<Message>): (r: Result<ClaudeInput>)
    ensures messages == [] ==> r == Err(IndexError)
    ensures r.Ok? ==>
              && r.value.system == messages[0].content
              && |r.value.messages| == |messages| - 1
              && forall k :: 0 <= k < |r.value.messages| ==>
                   TranslateMessage(messages[k + 1]) == Ok(r.value.messages[k])
  {
    if messages == [] then Err(IndexError)
    else
      match MapAll(TranslateMessage, messages[1..])
      case Err(e) => Err(e)
      case Ok(turns) =>
        assert forall k :: 0 <= k < |turns| ==> messages[1..][k] == messages[k + 1];
        Ok(ClaudeInput(messages[0].content, turns))
  }

  /** The translation succeeds with `turns` when every turn after the first translates to its counterpart. */
  lemma ToClaudeAllOk(messages: seq<Message>, turns: seq<Message>)
    requires messages != [] && |turns| == |messages| - 1
    requires forall k :: 0 <= k < |turns| ==> TranslateMessage(messages[k + 1]) == Ok(turns[k])
    ensures ToClaude(messages) == Ok(ClaudeInput(messages[0].content, turns))
  {
    MapAllAllOk(TranslateMessage, messages[1..], turns);
  }

  /** The translation raises the error of the first turn after `messages[0]` that fails. */
  lemma ToClaudeFirstError(messages: seq<Message>, done: seq<Message>, i: nat)
    requires i + 1 < |messages| && i <= |done|
    requires forall k :: 0 <= k < i ==> TranslateMessage(messages[k + 1]) == Ok(done[k])
    requires TranslateMessage(messages[i + 1]).Err?
    ensures ToClaude(messages) == Err(TranslateMessage(messages[i + 1]).error)
  {
    var turns := messages[1..];
    assert forall k :: 0 <= k < i ==> TranslateMessage(turns[k]) == Ok(done[k]);
    assert turns[i] == messages[i + 1];
    MapAllFirstError(TranslateMessage, turns, i);
  }

  /** No translated turn carries an `image_url` part any more. */
  predicate NoImageUrlParts(messages: seq<Message>)
  {
    forall k, j :: 0 <= k < |messages| && messages[k].content.Parts? && 0 <= j < |messages[k].content.parts| ==>
      messages[k].content.parts[j].partType != "image_url"
  }

  lemma ToClaudeRemovesImageUrls(messages: seq<Message>)
    requires ToClaude(messages).Ok?
    ensures NoImageUrlParts(ToClaude(messages).value.messages)
  {
    var turns := ToClaude(messages).value.messages;
    forall k, j | 0 <= k < |turns| && turns[k].content.Parts? && 0 <= j < |turns[k].content.parts|
      ensures turns[k].content.parts[j].partType != "image_url"
    {
      assert TranslateMessage(messages[k + 1]) == Ok(turns[k]);
      assert TranslatePart(messages[k + 1].content.parts[j]) == Ok(turns[k].content.parts[j]);
    }
  }

  /**
   * Translation is idempotent: a translated message has no `image_url` part
   * left, so translating it again changes nothing.
   */
  lemma TranslateMessageIdempotent(m: Message)
    requires TranslateMessage(m).Ok?
    ensures TranslateMessage(TranslateMessage(m).value) == TranslateMessage(m)
  {
    var t := TranslateMessage(m).value;
    if t.content.Parts? {
      var qs := t.content.parts;
      forall k | 0 <= k < |qs| ensures TranslatePart(qs[k]) == Ok(qs[k]) {
        assert TranslatePart(m.content.parts[k]) == Ok(qs[k]);
      }
      MapAllAllOk(TranslatePart, qs, qs);
    }
  }

  /** Turns whose content is a string, and parts that are not `image_url`, come through unchanged. */
  lemma ToClaudeKeepsUntouched(messages: seq<Message>, k: nat)
    requires ToClaude(messages).Ok?
    requires 0 < k < |messages|
    ensures messages[k].content.Text? ==> ToClaude(messages).value.messages[k - 1] == messages[k]
    ensures messages[k].content.Parts? ==>
              forall j :: 0 <= j < |messages[k].content.parts| && messages[k].content.parts[j].partType != "image_url" ==>
                ToClaude(messages).value.messages[k - 1].content.parts[j] == messages[k].content.parts[j]
  {
    var t := ToClaude(messages).value.messages[k - 1];
    assert TranslateMessage(messages[k]) == Ok(t);
  }
}
