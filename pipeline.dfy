/**
 * `StateMachine.process` and the two HTTP handlers: extract, critique the raw
 * record, then draft or revise once, with no loop back to the critic.
 */
module Pipeline {
  import opened Wrappers
  import opened Python
  import opened Oracles
  import opened Extraction
  import opened Input
  import opened Writer
  import opened Critic

  /** `words` defaults to 500, and `/generate_minutes` never passes it. */
  const DefaultWords := Int(500)

  /** `{"source": the_text, "words": words}`. */
  function Seed(text: Value, words: Value): Mapping
  {
    map["source" := text, "words" := words]
  }

  /** What `process` returns once the critique is merged into `a` and the writer's step ended in `g`. */
  function Final(a: Mapping, g: Result<Value, Error>): Mapping
  {
    match Applied(a, g)
    case Success(m) => m
    case Failure(e) => ErrorDict(e)
  }

  /** A request's payload and the requests it sent to the model, in order. */
  datatype Trace = Trace(payload: Mapping, requests: seq<Request>)

  /**
   * The reference behaviour of `process` for the extracted input `text`, when the
   * model answers call `n` and the calls after it as `respond` says.
   */
  function Processed(lib: Library, respond: (nat, Request) -> Result<string, string>, n: nat,
                     text: Value, words: Value): (t: Trace)
    ensures 1 <= |t.requests| <= 2
    ensures t.requests[0] == CritiqueRequest(map["words" := words])
    ensures |t.requests| == 2 <==> respond(n, t.requests[0]).Success?
    ensures |t.requests| == 1 ==> t.payload == ErrorDict(ServiceError(respond(n, t.requests[0]).error))
    ensures |t.requests| == 2 ==>
      var reply := respond(n, t.requests[0]).value;
      (reply == "None" ==> t.requests[1] == DraftRequest(text, words)) &&
      (reply != "None" ==> t.requests[1] == ReviseRequest(map["source" := text, "words" := words,
                                                              "critique" := Str(reply), "message" := Null])) &&
      t.payload == Final(Update(Seed(text, words), Verdict(reply)), Generated(lib, respond(n + 1, t.requests[1])))
  {
    var critiqueRequest := CritiqueRequest(Seed(text, words) - {"source"});
    assert Seed(text, words) - {"source"} == map["words" := words];
    match respond(n, critiqueRequest)
    case Failure(msg) => Trace(ErrorDict(ServiceError(msg)), [critiqueRequest])
    case Success(reply) =>
      var a := Update(Seed(text, words), Verdict(reply));
      var req := RunRequest(a);
      assert reply != "None" ==> a == map["source" := text, "words" := words, "critique" := Str(reply), "message" := Null];
      var writerRequest := req.value;
      Trace(Final(a, Generated(lib, respond(n + 1, writerRequest))), [critiqueRequest, writerRequest])
  }

  /**
   * An upload that is neither `.pdf` nor `.txt` does not end the request: the error
   * dict becomes the source, and when the critic approves it is what the writer drafts from.
   */
  lemma UnsupportedUploadReachesWriter(lib: Library, respond: (nat, Request) -> Result<string, string>, n: nat,
                                       content: seq<byte>, filename: string, words: Value)
    requires !EndsWith(filename, ".pdf") && !EndsWith(filename, ".txt")
    requires respond(n, CritiqueRequest(map["words" := words])) == Success("None")
    ensures var t := Processed(lib, respond, n, InputText(lib, content, filename), words);
      t.requests == [CritiqueRequest(map["words" := words]),
                     DraftRequest(Obj(map["error" := Str(ActaPrefix + "400: Unsupported file format")]), words)]
    ensures var t := Processed(lib, respond, n, InputText(lib, content, filename), words);
      var g := Generated(lib, respond(n + 1, t.requests[1]));
      g.Success? && g.value.Obj? && "source" !in g.value.fields ==>
        "source" in t.payload && t.payload["source"] == Obj(map["error" := Str(ActaPrefix + "400: Unsupported file format")])
  {
  }

  class StateMachine {
    const inputAgent: InputAgent

    constructor ()
      ensures fresh(inputAgent) && inputAgent.inputs == []
    {
      inputAgent := new InputAgent();
    }

    /** `process(file, words)`: every exception inside becomes the error dict. */
    method Process(llm: ChatModel, lib: Library, content: seq<byte>, filename: string, words: Value)
      returns (r: Mapping)
      modifies inputAgent, llm
      ensures inputAgent.inputs == old(inputAgent.inputs) + [InputText(lib, content, filename)]
      ensures |old(llm.log)| <= |llm.log| && llm.log[..|old(llm.log)|] == old(llm.log)
      ensures Trace(r, llm.log[|old(llm.log)|..])
           == Processed(lib, llm.respond, |old(llm.log)|, InputText(lib, content, filename), words)
    {
      ghost var n := |llm.log|;
      var text := inputAgent.Receive(lib, content, filename);
      ghost var spec := Processed(lib, llm.respond, n, text, words);
      var article := new Dict(Seed(text, words));
      assert article.items - {"source"} == map["words" := words];
      var critique := Critique(llm, article);
      assert llm.log == old(llm.log) + [spec.requests[0]];
      if critique.Failure? {
        r := ErrorDict(critique.error);
        assert llm.log[n..] == spec.requests;
        return;
      }
      ghost var reply := llm.respond(n, spec.requests[0]).value;
      article.UpdateWithDict(critique.value);
      assert article.items == Update(Seed(text, words), Verdict(reply));
      assert RunRequest(article.items) == Success(spec.requests[1]);
      var result := Run(llm, lib, article);
      assert llm.log == old(llm.log) + spec.requests;
      if result.Success? {
        r := result.value.items;
      } else {
        r := ErrorDict(result.error);
      }
      assert r == spec.payload;
      assert llm.log[n..] == spec.requests;
    }
  }

  /** `POST /generate_minutes` on the module-global state machine. */
  method GenerateMinutes(machine: StateMachine, llm: ChatModel, lib: Library, content: seq<byte>, filename: string)
    returns (r: Mapping)
    modifies machine.inputAgent, llm
    ensures machine.inputAgent.inputs == old(machine.inputAgent.inputs) + [InputText(lib, content, filename)]
    ensures |old(llm.log)| <= |llm.log| && llm.log[..|old(llm.log)|] == old(llm.log)
    ensures Trace(r, llm.log[|old(llm.log)|..])
         == Processed(lib, llm.respond, |old(llm.log)|, InputText(lib, content, filename), DefaultWords)
  {
    r := machine.Process(llm, lib, content, filename, DefaultWords);
  }

  /**
   * `POST /process_critique`: the posted article gets the critique and the freshly
   * extracted source, and revise's output is returned as it is. Nothing here is caught.
   */
  method ProcessCritique(llm: ChatModel, lib: Library, content: seq<byte>, filename: string,
                         critique: string, article: string) returns (r: Result<Value, Error>)
    modifies llm
    ensures var parsed := lib.parseJson(article);
      parsed.Failure? ==> r == Failure(MalformedOutput(parsed.error)) && llm.log == old(llm.log)
    ensures var parsed := lib.parseJson(article);
      parsed.Success? && !parsed.value.Obj? ==>
        r == Failure(TypeError(ItemAssignmentError(parsed.value))) && llm.log == old(llm.log)
    ensures var parsed := lib.parseJson(article);
      var text := Extracted(lib, content, filename);
      parsed.Success? && parsed.value.Obj? && text.Failure? ==> r == Failure(text.error) && llm.log == old(llm.log)
    ensures var parsed := lib.parseJson(article);
      var text := Extracted(lib, content, filename);
      parsed.Success? && parsed.value.Obj? && text.Success? ==>
        var req := ReviseRequest(parsed.value.fields["critique" := Str(critique)]["source" := Str(text.value)]);
        llm.log == old(llm.log) + [req] && r == Generated(lib, llm.respond(|old(llm.log)|, req))
  {
    var parsed := lib.parseJson(article);
    if parsed.Failure? {
      return Failure(MalformedOutput(parsed.error));
    }
    if !parsed.value.Obj? {
      return Failure(TypeError(ItemAssignmentError(parsed.value)));
    }
    var articleJson := new Dict(parsed.value.fields);
    articleJson.Set("critique", Str(critique));
    var text := ExtractText(lib, content, filename);
    if text.Failure? {
      return Failure(text.error);
    }
    articleJson.Set("source", Str(text.value));
    r := Revise(llm, lib, articleJson.items);
  }
}
