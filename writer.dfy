/** `WriterAgent`: drafts the minutes from the source text, or revises them after a critique. */
module Writer {
  import opened Wrappers
  import opened Python
  import opened Oracles
  import opened PyStrip

  /** What `json.loads(cleaned_response)` yields for a reply of the model, or the exception raised on the way. */
  function Generated(lib: Library, reply: Result<string, string>): (r: Result<Value, Error>)
    ensures reply.Failure? ==> r == Failure(ServiceError(reply.error))
    ensures reply.Success? ==>
      var parsed := lib.parseJson(Cleanup(reply.value));
      (r.Success? <==> parsed.Success?) &&
      (r.Success? ==> r.value == parsed.value) &&
      (r.Failure? ==> r.error == MalformedOutput(parsed.error))
  {
    match reply
    case Failure(msg) => Failure(ServiceError(msg))
    case Success(text) =>
      match lib.parseJson(Cleanup(text))
      case Success(v) => Success(v)
      case Failure(msg) => Failure(MalformedOutput(msg))
  }

  /** `article.update(...)` applied to what the writer produced, or the exception that stops it. */
  function Applied(a: Mapping, g: Result<Value, Error>): (r: Result<Mapping, Error>)
    ensures g.Failure? ==> r == Failure(g.error)
    ensures g.Success? && g.value.Obj? ==> r == Success(Update(a, g.value.fields))
    ensures g.Success? && !g.value.Obj? ==> r == Merged(a, g.value)
  {
    if g.Failure? then Failure(g.error) else Merged(a, g.value)
  }

  /** `writer(the_text, word_count)`: one call to the model, whose reply is cleaned and parsed. */
  method Draft(llm: ChatModel, lib: Library, text: Value, words: Value) returns (r: Result<Value, Error>)
    modifies llm
    ensures llm.log == old(llm.log) + [DraftRequest(text, words)]
    ensures r == Generated(lib, llm.respond(|old(llm.log)|, DraftRequest(text, words)))
  {
    var reply := llm.Invoke(DraftRequest(text, words));
    r := Generated(lib, reply);
  }

  /** `revise(article)`: one call to the model with the whole article, whose reply is cleaned and parsed. */
  method Revise(llm: ChatModel, lib: Library, article: Mapping) returns (r: Result<Value, Error>)
    modifies llm
    ensures llm.log == old(llm.log) + [ReviseRequest(article)]
    ensures r == Generated(lib, llm.respond(|old(llm.log)|, ReviseRequest(article)))
  {
    var reply := llm.Invoke(ReviseRequest(article));
    r := Generated(lib, reply);
  }

  /** `article.get("critique") is not None`. */
  predicate UnderCritique(a: Mapping)
  {
    Get(a, "critique") != Null
  }

  /** The request `run` makes for an article, or the KeyError it raises before making one. */
  function RunRequest(a: Mapping): (r: Result<Request, Error>)
    ensures r.Success? && r.value.ReviseRequest? <==> "critique" in a && a["critique"] != Null
    ensures UnderCritique(a) ==> r == Success(ReviseRequest(a))
    ensures !UnderCritique(a) && "source" in a && "words" in a ==> r == Success(DraftRequest(a["source"], a["words"]))
    ensures !UnderCritique(a) && "source" !in a ==> r == Failure(KeyError("source"))
    ensures !UnderCritique(a) && "source" in a && "words" !in a ==> r == Failure(KeyError("words"))
  {
    if UnderCritique(a) then Success(ReviseRequest(a))
    else if "source" !in a then Failure(KeyError("source"))
    else if "words" !in a then Failure(KeyError("words"))
    else Success(DraftRequest(a["source"], a["words"]))
  }

  /**
   * `run(article)`: revise when a critique is pending, draft otherwise; the result is
   * merged into the same dict, which is returned.
   */
  method Run(llm: ChatModel, lib: Library, article: Dict) returns (r: Result<Dict, Error>)
    modifies llm, article
    ensures var req := RunRequest(old(article.items));
      req.Failure? ==> r == Failure(req.error) && llm.log == old(llm.log) && article.items == old(article.items)
    ensures var req := RunRequest(old(article.items));
      req.Success? ==>
        llm.log == old(llm.log) + [req.value] &&
        var outcome := Applied(old(article.items), Generated(lib, llm.respond(|old(llm.log)|, req.value)));
        (outcome.Success? ==> r == Success(article) && article.items == outcome.value) &&
        (outcome.Failure? ==> r == Failure(outcome.error) && article.items == old(article.items))
  {
    var generated: Result<Value, Error>;
    if Get(article.items, "critique") != Null {
      generated := Revise(llm, lib, article.items);
    } else {
      if "source" !in article.items {
        return Failure(KeyError("source"));
      }
      if "words" !in article.items {
        return Failure(KeyError("words"));
      }
      generated := Draft(llm, lib, article.items["source"], article.items["words"]);
    }
    if generated.Failure? {
      return Failure(generated.error);
    }
    var updated := article.UpdateWith(generated.value);
    if updated.Failure? {
      return Failure(updated.error);
    }
    r := Success(article);
  }
}
