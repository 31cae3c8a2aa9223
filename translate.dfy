/**
 * The OpenAI-to-Claude translation as the adapters run it: the turns after
 * the first are copied into a fresh list, and each `image_url` part of a
 * list-valued content is rewritten in place, one dict update at a time.
 * Both methods are proved against `Messages.ToClaude`.
 */
module Translate {
  import opened Common
  import opened Messages

  /**
   * The inner loop over one content list: each `image_url` part is retagged
   * `image`, its URL is split, the `image_url` key is deleted and a base64
   * `source` is added; the first part that fails raises.
   */
  method RewriteParts(parts: array<ContentPart>) returns (error: Option<Error>)
    modifies parts
    ensures error.None? ==> MapAll(TranslatePart, old(parts[..])) == Ok(parts[..])
    ensures error.Some? ==> MapAll(TranslatePart, old(parts[..])) == Err(error.value)
  {
    ghost var original := parts[..];
    var i := 0;
    while i < parts.Length
      invariant 0 <= i <= parts.Length
      invariant forall k :: 0 <= k < i ==> TranslatePart(original[k]) == Ok(parts[k])
      invariant forall k :: i <= k < parts.Length ==> parts[k] == original[k]
    {
      var part := parts[i];
      if part.partType == "image_url" {
        part := part.(partType := "image");
        parts[i] := part;
        if part.imageUrl.None? {
          MapAllFirstError(TranslatePart, original, i);
          return Some(KeyError);
        }
        var url := part.imageUrl.value;
        var mediaType := MediaTypeOf(url);
        if mediaType.Err? {
          MapAllFirstError(TranslatePart, original, i);
          return Some(mediaType.error);
        }
        var data := PayloadOf(url);
        if data.Err? {
          MapAllFirstError(TranslatePart, original, i);
          return Some(data.error);
        }
        part := part.(imageUrl := None);
        part := part.(source := Some(ImageSource("base64", mediaType.value, data.value)));
        ghost var before := parts[..];
        parts[i] := part;
        assert parts[..] == before[i := part];
      }
      i := i + 1;
    }
    MapAllAllOk(TranslatePart, original, parts[..]);
    return None;
  }

  /**
   * One copied turn: string content is skipped (`continue`), list content
   * has its parts rewritten.
   */
  method RewriteMessage(m: Message) returns (r: Result<Message>)
    ensures r == TranslateMessage(m)
  {
    match m.content {
      case Text(_) =>
        r := Ok(m);
      case Parts(ps) =>
        var buffer := new ContentPart[|ps|](k requires 0 <= k < |ps| => ps[k]);
        assert buffer[..] == ps;
        var error := RewriteParts(buffer);
        if error.Some? {
          r := Err(error.value);
        } else {
          TranslateListMessage(m, buffer[..]);
          r := Ok(m.(content := Parts(buffer[..])));
        }
    }
  }

  /**
   * The whole translation: `messages[0]`'s content is the system prompt,
   * `[dict(m) for m in messages[1:]]` is the copied turn list, and every
   * turn with list content has its parts rewritten.
   */
  method TranslateToClaude(messages: seq<Message>) returns (r: Result<ClaudeInput>)
    ensures r == ToClaude(messages)
  {
    if |messages| == 0 {
      return Err(IndexError);
    }
    var system := messages[0].content;
    var turns := new Message[|messages| - 1](k requires 0 <= k < |messages| - 1 => messages[k + 1]);
    var i := 0;
    while i < turns.Length
      invariant 0 <= i <= turns.Length
      invariant forall k :: 0 <= k < i ==> TranslateMessage(messages[k + 1]) == Ok(turns[k])
      invariant forall k :: i <= k < turns.Length ==> turns[k] == messages[k + 1]
    {
      var translated := RewriteMessage(turns[i]);
      if translated.Err? {
        ToClaudeFirstError(messages, turns[..], i);
        return Err(translated.error);
      }
      ghost var before := turns[..];
      turns[i] := translated.value;
      assert turns[..] == before[i := translated.value];
      i := i + 1;
    }
    ToClaudeAllOk(messages, turns[..]);
    r := Ok(ClaudeInput(system, turns[..]));
  }
}
