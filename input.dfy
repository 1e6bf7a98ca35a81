/** `InputAgent`: reads the uploaded file and keeps every input it was given. */
module Input {
  import opened Wrappers
  import opened Python
  import opened Oracles
  import opened Extraction

  const ActaPrefix := "Error generating acta: "

  /** `{"error": f"Error generating acta: {str(e)}"}`: the payload that stands in for an exception. */
  function ErrorDict(e: Error): Mapping
  {
    map["error" := Str(ActaPrefix + Describe(e))]
  }

  /** What `get_input` returns: the extracted text, or in its place the error dict of what extraction raised. */
  function InputText(lib: Library, content: seq<byte>, filename: string): (v: Value)
    ensures v.Str? <==> Extracted(lib, content, filename).Success?
    ensures v.Str? ==> v.s == Extracted(lib, content, filename).value
    ensures !v.Str? ==> v == Obj(ErrorDict(Extracted(lib, content, filename).error))
    ensures !EndsWith(filename, ".pdf") && !EndsWith(filename, ".txt") ==>
      v == Obj(map["error" := Str(ActaPrefix + "400: Unsupported file format")])
  {
    match Extracted(lib, content, filename)
    case Success(text) => Str(text)
    case Failure(e) => Obj(ErrorDict(e))
  }

  class InputAgent {
    /** Every value `receive` has returned, oldest first. */
    var inputs: seq<Value>

    constructor ()
      ensures inputs == []
    {
      inputs := [];
    }

    /** `get_input`: never raises; an extraction failure comes back as the error dict. */
    method GetInput(lib: Library, content: seq<byte>, filename: string) returns (v: Value)
      ensures v == InputText(lib, content, filename)
    {
      var r := ExtractText(lib, content, filename);
      if r.Success? {
        v := Str(r.value);
      } else {
        v := Obj(ErrorDict(r.error));
      }
    }

    /** `receive`: records what `get_input` returned, then returns it. */
    method Receive(lib: Library, content: seq<byte>, filename: string) returns (v: Value)
      modifies this
      ensures v == InputText(lib, content, filename)
      ensures inputs == old(inputs) + [v]
    {
      v := GetInput(lib, content, filename);
      inputs := inputs + [v];
    }
  }
}
