/** `CritiqueAgent`: one review of the article by the model. */
module Critic {
  import opened Wrappers
  import opened Python
  import opened Oracles

  /** The dict a review reply stands for: the exact reply `None` approves, any other text is the critique. */
  function Verdict(reply: string): (r: Mapping)
    ensures "critique" in r
    ensures r["critique"] == Null <==> reply == "None"
    ensures "message" in r <==> reply != "None"
    ensures reply == "None" ==> r.Keys == {"critique"}
    ensures reply != "None" ==> r["critique"] == Str(reply) && r["message"] == Null && r.Keys == {"critique", "message"}
  {
    if reply == "None" then map["critique" := Null]
    else map["critique" := Str(reply), "message" := Null]
  }

  /** `critique(article)`: the model sees a copy of the article without its source; the caller's dict is untouched. */
  method Critique(llm: ChatModel, article: Dict) returns (r: Result<Mapping, Error>)
    modifies llm
    ensures article.items == old(article.items)
    ensures "source" !in article.items ==> r == Failure(KeyError("source")) && llm.log == old(llm.log)
    ensures "source" in article.items ==>
      var req := CritiqueRequest(article.items - {"source"});
      var reply := llm.respond(|old(llm.log)|, req);
      llm.log == old(llm.log) + [req] &&
      (reply.Success? ==> r == Success(Verdict(reply.value))) &&
      (reply.Failure? ==> r == Failure(ServiceError(reply.error)))
  {
    var short := article.Copy();
    var found := short.Delete("source");
    if !found {
      return Failure(KeyError("source"));
    }
    var reply := llm.Invoke(CritiqueRequest(short.items));
    if reply.Success? {
      r := Success(Verdict(reply.value));
    } else {
      r := Failure(ServiceError(reply.error));
    }
  }
}
