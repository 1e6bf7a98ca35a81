/**
 * The collaborators the pipeline calls but whose insides are not modelled:
 * the PDF reader, the UTF-8 decoder and json.loads (deterministic library
 * functions), and the remote chat model (a service whose reply to each call
 * is arbitrary).
 */
module Oracles {
  import opened Wrappers
  import opened Python

  newtype byte = b: int | 0 <= b < 256

  /**
   * The library functions. Each yields its result or the text of the exception it raises:
   * `readPdf` the text of each page in order (PyPDF2's reader and `page.extract_text()`),
   * `decodeUtf8` is `bytes.decode('utf-8')`, `parseJson` is `json.loads`.
   */
  datatype Library = Library(
    readPdf: seq<byte> -> Result<seq<string>, string>,
    decodeUtf8: seq<byte> -> Result<string, string>,
    parseJson: string -> Result<Value, string>)

  /**
   * What a prompt carries, up to its fixed wording: the dict serialised into it,
   * or the text and the word count formatted into it.
   */
  datatype Request =
    | CritiqueRequest(article: Mapping)
    | DraftRequest(text: Value, words: Value)
    | ReviseRequest(article: Mapping)

  /** The remote chat model; `log` is every request it has been sent, in order. */
  class ChatModel {
    /** The reply to the request made as call number `n`, or the text of the exception raised. */
    const respond: (nat, Request) -> Result<string, string>
    var log: seq<Request>

    constructor (respond: (nat, Request) -> Result<string, string>)
      ensures this.respond == respond && log == []
    {
      this.respond := respond;
      log := [];
    }

    /** `ChatCohere(...).invoke(messages).content`. */
    method Invoke(req: Request) returns (reply: Result<string, string>)
      modifies this
      ensures log == old(log) + [req]
      ensures reply == respond(|old(log)|, req)
    {
      reply := respond(|log|, req);
      log := log + [req];
    }
  }
}
