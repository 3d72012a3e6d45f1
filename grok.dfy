/** Reading the challenge image through the Groq chat-completion API.

    The HTTP exchange and the JSON text parser are oracles: `send` (Tauri,
    reqwest) and `create` (Electron and the Node script, groq-sdk) map a key
    and a request to what came back, and a `Parser` maps a text to the JSON
    value it denotes, or to `None` when it is not JSON.  What is modelled is
    the request the code builds and how it picks the answer out of the
    response: grok.rs with serde's `get`/`as_*` chain, grok.ts and the Node
    script with one `?.`/`??` expression.  The Electron side also keeps the
    Groq client and the key file, held here by `KeyStore`. */
module Grok {
  import opened Wrappers
  import opened Json
  import opened Base64
  import opened Paths

  const ModelName := "meta-llama/llama-4-scout-17b-16e-instruct"
  const RustPrompt := "Write me the text in the image, return the following JSON: {\"text\": \"\"}"
  const JsPrompt := "Write me the text in the image,\nreturn the following JSON: {\"text\": \"\"}"

  /** The request body: one user message holding the prompt and the image as
      a PNG data URL, asking for a JSON object back. */
  function Request(prompt: string, image: seq<Byte>): Json
  {
    var text := Obj(map["type" := Str("text"), "text" := Str(prompt)]);
    var picture := Obj(map["type" := Str("image_url"), "image_url" := Obj(map["url" := Str(DataUrl(image))])]);
    Obj(map[
      "model" := Str(ModelName),
      "messages" := Arr([Obj(map["role" := Str("user"), "content" := Arr([text, picture])])]),
      "response_format" := Obj(map["type" := Str("json_object")]),
      "stream" := Bool(false)])
  }

  /** `messages[0].content[1].image_url.url` of a request. */
  function ImageUrl(request: Json): Option<string>
  {
    var messages := Get(request, "messages");
    if messages.None? || !messages.value.Arr? || messages.value.items == [] then None
    else
      var parts := Get(messages.value.items[0], "content");
      if parts.None? || !parts.value.Arr? || |parts.value.items| < 2 then None
      else
        var holder := Get(parts.value.items[1], "image_url");
        if holder.None? then None
        else
          var url := Get(holder.value, "url");
          if url.Some? && url.value.Str? then Some(url.value.s) else None
  }

  /** The request carries the image whole: its URL is the data-URL prefix
      followed by base64 text that decodes back to the image's bytes. */
  lemma RequestCarriesImage(prompt: string, image: seq<Byte>)
    ensures ImageUrl(Request(prompt, image)) == Some(DataUrl(image))
    ensures Decode(DataUrl(image)[22..]) == Some(image)
  {
    DataUrlCarriesImage(image);
  }

  // ------------------------------------------------------------- Tauri

  /** What reqwest hands back: the send failed, the body was not JSON, or the
      decoded body. */
  datatype Reply = SendFailed(reason: string) | BadBody(reason: string) | Body(json: Json)

  /** The `and_then` chain of `get_text_from_img`:
      `choices` → array → element 0 → `message` → `content` → string →
      parsed JSON → `text` → string. */
  function ExtractText(body: Json, parse: Parser): Option<string>
  {
    match Get(body, "choices")
    case None => None
    case Some(choices) =>
      match AsArray(choices)
      case None => None
      case Some(items) =>
        if items == [] then None
        else
          match Get(items[0], "message")
          case None => None
          case Some(message) =>
            match Get(message, "content")
            case None => None
            case Some(content) =>
              match AsStr(content)
              case None => None
              case Some(s) =>
                match parse(s)
                case None => None
                case Some(parsed) =>
                  match Get(parsed, "text")
                  case None => None
                  case Some(t) => AsStr(t)
  }

  /** `get_text_from_img(img_data, api_key)` */
  function GetTextFromImg(image: seq<Byte>, apiKey: string, send: (string, Json) -> Reply, parse: Parser)
    : (r: Result<Option<string>, string>)
    ensures r.Err? <==> !send(apiKey, Request(RustPrompt, image)).Body?
    ensures send(apiKey, Request(RustPrompt, image)).SendFailed? ==>
      r == Err("Failed to send request to Groq API: " + send(apiKey, Request(RustPrompt, image)).reason)
    ensures send(apiKey, Request(RustPrompt, image)).BadBody? ==>
      r == Err("Failed to parse response: " + send(apiKey, Request(RustPrompt, image)).reason)
  {
    match send(apiKey, Request(RustPrompt, image))
    case SendFailed(e) => Err("Failed to send request to Groq API: " + e)
    case BadBody(e) => Err("Failed to parse response: " + e)
    case Body(b) => Ok(ExtractText(b, parse))
  }

  /** `init_groq`: the Node script builds the client, so this always succeeds. */
  function InitGroq(apiKeyPath: Path): (r: Result<(), string>)
    ensures r.Ok?
  {
    Ok(())
  }

  /** A well-formed completion whose first choice's message has `content`. */
  function Completion(content: Json): Json
  {
    Obj(map["choices" := Arr([Obj(map["message" := Obj(map["content" := content])])])])
  }

  /** A completion whose content is JSON text with a string `text` yields
      exactly that string, the empty one included. */
  lemma ExtractFromCompletion(content: string, parse: Parser, fields: map<string, Json>, t: string)
    requires parse(content) == Some(Obj(fields)) && "text" in fields && fields["text"] == Str(t)
    ensures ExtractText(Completion(Str(content)), parse) == Some(t)
  {
  }

  /** Every missing or mistyped link makes the answer `None`. */
  lemma ExtractTextNone(body: Json, parse: Parser)
    ensures Get(body, "choices").None? ==> ExtractText(body, parse) == None
    ensures Get(body, "choices").Some? && !Get(body, "choices").value.Arr? ==> ExtractText(body, parse) == None
    ensures Get(body, "choices") == Some(Arr([])) ==> ExtractText(body, parse) == None
    ensures forall content: Json :: body == Completion(content) && !content.Str? ==> ExtractText(body, parse) == None
    ensures forall s :: body == Completion(Str(s)) && parse(s).None? ==> ExtractText(body, parse) == None
    ensures forall s, p :: body == Completion(Str(s)) && parse(s) == Some(p) && (Get(p, "text").None? || !Get(p, "text").value.Str?)
                           ==> ExtractText(body, parse) == None
  {
  }

  // ---------------------------------------------- Electron and Node script

  /** The settled outcome of `getTextFromImg` in grok.ts and the Node script:
      `null` without a client, a rejected promise, or the value it resolves
      to. */
  datatype Answer = NoClient | Rejected | Resolved(text: Json)

  /** `JSON.parse(completion?.choices?.[0]?.message?.content ?? "{}")?.text ?? ""`;
      `None` when `JSON.parse` throws.  `JSON.parse` turns a non-string into
      text first. */
  function JsExtract(completion: Json, parse: Parser): Option<Json>
  {
    var content := Prop(Prop(First(Prop(Some(completion), "choices")), "message"), "content");
    var text := OrElse(content, Str("{}"));
    match parse(ToText(text))
    case None => None
    case Some(parsed) => Some(OrElse(Prop(Some(parsed), "text"), Str("")))
  }

  /** `getTextFromImg(img)` given the client's key, if there is a client. */
  function JsGetTextFromImg(client: Option<string>, image: seq<Byte>, create: (string, Json) -> Option<Json>, parse: Parser)
    : (a: Answer)
    ensures a == NoClient <==> client.None?
    ensures a.Resolved? ==> a.text != Null
  {
    match client
    case None => NoClient
    case Some(key) =>
      match create(key, Request(JsPrompt, image))
      case None => Rejected
      case Some(completion) =>
        match JsExtract(completion, parse)
        case None => Rejected
        case Some(v) => Resolved(v)
  }

  /** Where grok.rs finds a text, the JavaScript expression finds the same
      string. */
  lemma JsAgreesWithRust(body: Json, parse: Parser, t: string)
    requires ExtractText(body, parse) == Some(t)
    ensures JsExtract(body, parse) == Some(Str(t))
  {
    var choices := Get(body, "choices").value;
    var first := choices.items[0];
    var message := Get(first, "message").value;
    assert Prop(First(Prop(Some(body), "choices")), "message") == Some(message);
  }

  /** A completion without content resolves to "" in JavaScript (the
      expression parses "{}"), where grok.rs answers `None`. */
  lemma MissingContentIsEmpty(parse: Parser)
    requires parse("{}") == Some(Obj(map[]))
    ensures JsExtract(Obj(map[]), parse) == Some(Str(""))
    ensures JsExtract(Completion(Null), parse) == Some(Str(""))
    ensures ExtractText(Obj(map[]), parse) == None && ExtractText(Completion(Null), parse) == None
  {
    assert ToText(Str("{}")) == "{}";
  }

  /** Content that is not JSON makes the JavaScript promise reject, where
      grok.rs answers `Ok(None)`. */
  lemma MalformedContentRejects(s: string, parse: Parser)
    requires parse(s).None?
    ensures JsExtract(Completion(Str(s)), parse).None?
    ensures ExtractText(Completion(Str(s)), parse) == None
  {
  }

  /** The Node script builds a client only from a non-empty key argument. */
  function ScriptClient(apiKeyArg: Option<string>): (client: Option<string>)
    ensures client.Some? <==> apiKeyArg.Some? && apiKeyArg.value != ""
  {
    if apiKeyArg.Some? && apiKeyArg.value != "" then apiKeyArg else None
  }

  /** The Electron main process's key file and Groq client (grok.ts's module
      state and main.ts's key handlers).  A read of an existing key file
      either succeeds or throws with an error text (`Option<string>`, `None`
      meaning success), as on the Tauri side. */
  class KeyStore {
    const keyPath: Path
    var files: map<Path, string>
    /** The key the current Groq client was built with, if there is one. */
    var client: Option<string>

    /** The key file's content, `None` when it is absent. */
    function KeyFile(): Option<string>
      reads this
    {
      if keyPath in files then Some(files[keyPath]) else None
    }

    /** The client agrees with the key file. */
    predicate InSync()
      reads this
    {
      client == KeyFile()
    }

    /** The module state after grok.ts has loaded without throwing: a client
        is built from the key file's content if the file exists. */
    constructor (configDir: Path, files: map<Path, string>)
      ensures keyPath == ApiKeyPath(configDir) && this.files == files
      ensures client.Some? <==> ApiKeyPath(configDir) in files
      ensures client.Some? ==> client.value == files[ApiKeyPath(configDir)]
      ensures InSync()
    {
      keyPath := ApiKeyPath(configDir);
      this.files := files;
      client := if ApiKeyPath(configDir) in files then Some(files[ApiKeyPath(configDir)]) else None;
    }

    /** Loading grok.ts.  `readError` is the outcome of reading an existing
        key file; when that read throws, the import throws with it and no
        module state comes to be. */
    static method Load(configDir: Path, files: map<Path, string>, readError: Option<string>)
      returns (r: Result<KeyStore, string>)
      ensures r.Err? <==> ApiKeyPath(configDir) in files && readError.Some?
      ensures r.Err? ==> r.error == readError.value
      ensures r.Ok? ==> fresh(r.value) && r.value.keyPath == ApiKeyPath(configDir) && r.value.files == files
      ensures r.Ok? ==> r.value.InSync() && (r.value.client.Some? <==> ApiKeyPath(configDir) in files)
    {
      if ApiKeyPath(configDir) in files && readError.Some? {
        return Err(readError.value);
      }
      var store := new KeyStore(configDir, files);
      return Ok(store);
    }

    /** `initGroq(apiKey)` */
    method InitGroq(apiKey: string)
      modifies this
      ensures client == Some(apiKey) && files == old(files)
    {
      client := Some(apiKey);
    }

    /** The `getApiKey` handler: `Ok(None)` for `null`, the key file's
        content, or a rejection carrying the error of a read that throws. */
    function GetApiKey(readError: Option<string>): (r: Result<Option<string>, string>)
      reads this
      ensures r == Ok(None) <==> keyPath !in files
      ensures r.Ok? && r.value.Some? ==> readError.None? && r.value.value == files[keyPath]
      ensures keyPath in files && readError.Some? ==> r == Err(readError.value)
    {
      if keyPath !in files then Ok(None)
      else if readError.Some? then Err(readError.value)
      else Ok(Some(files[keyPath]))
    }

    /** The `saveApiKey` handler; `written` is false when `writeFileSync`
        throws, and then the handler rejects before `initGroq`. */
    method SaveApiKey(apiKey: string, written: bool)
      modifies this
      ensures written ==> files == old(files)[keyPath := apiKey] && client == Some(apiKey)
      ensures written ==> GetApiKey(None) == Ok(Some(apiKey)) && InSync()
      ensures !written ==> files == old(files) && client == old(client)
    {
      if written {
        files := files[keyPath := apiKey];
        InitGroq(apiKey);
      }
    }
  }
}
