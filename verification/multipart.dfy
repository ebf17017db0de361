/** The multipart/form-data body of runWithPostFields: which parts are
    written and in what order, and which writer step fails first. The byte
    encoding and the boundary are the mime/multipart library's and are not
    modelled. */
module Multipart {
  import opened Wrappers
  import Json
  import Errors
  import opened GraphqlRequest

  datatype Part =
    | QueryField(query: string)
    | VariablesField(variables: map<string, Json.Value>)
    | FilePart(field: string, fileName: string, content: seq<byte>)

  /** The writer calls that can fail, in the order they are made. */
  datatype Step =
    | WriteQuery
    | CreateVariables
    | EncodeVariables
    | CreateFormFile(index: nat)
    | PrepareFile(index: nat)
    | CloseWriter

  /** The step that failed first and the library's error. */
  datatype Fault = Fault(step: Step, cause: Errors.Cause)

  /** The text each step's error is wrapped with. */
  function Label(s: Step): string
  {
    match s
    case WriteQuery => "write query field"
    case CreateVariables => "create variables field"
    case EncodeVariables => "encode variables"
    case CreateFormFile(_) => "create form file"
    case PrepareFile(_) => "preparing file"
    case CloseWriter => "close writer"
  }

  /** `len(req.vars) > 0`: a nil map has length zero. */
  predicate HasVariables(req: GraphRequest)
  {
    |EffectiveVars(req)| > 0
  }

  function FilePartOf(f: FileUpload): Part
  {
    FilePart(f.field, f.name, f.content)
  }

  /** The query field, then the variables field when there are variables. */
  function HeadParts(req: GraphRequest): seq<Part>
  {
    [QueryField(req.query)] + (if HasVariables(req) then [VariablesField(EffectiveVars(req))] else [])
  }

  /** One file part per attachment, in attachment order. */
  function FileParts(files: seq<FileUpload>): seq<Part>
    decreases |files|
  {
    if |files| == 0 then [] else FileParts(files[..|files| - 1]) + [FilePartOf(files[|files| - 1])]
  }

  /** The parts of the body of `req`, in the order they are written. */
  function Parts(req: GraphRequest): seq<Part>
  {
    HeadParts(req) + FileParts(req.files)
  }

  function HeadSteps(req: GraphRequest): seq<Step>
  {
    [WriteQuery] + (if HasVariables(req) then [CreateVariables, EncodeVariables] else [])
  }

  /** The two writer calls of each attachment from index `from` on. */
  function FileSteps(from: nat, count: nat): seq<Step>
    decreases count - from
  {
    if count <= from then [] else [CreateFormFile(from), PrepareFile(from)] + FileSteps(from + 1, count)
  }

  /** Every writer call made for `req`, in order. */
  function Steps(req: GraphRequest): seq<Step>
  {
    HeadSteps(req) + FileSteps(0, |req.files|) + [CloseWriter]
  }

  /** The first step of `steps` that fails under `faults`. */
  function FirstFault(steps: seq<Step>, faults: map<Step, Errors.Cause>): (r: Option<Step>)
    ensures r.Some? ==> r.value in steps && r.value in faults
    ensures r.None? ==> forall s :: s in steps ==> s !in faults
    ensures 0 < |steps| && steps[0] in faults ==> r == Some(steps[0])
    ensures r.Some? ==> exists j :: 0 <= j < |steps| && steps[j] == r.value && forall i :: 0 <= i < j ==> steps[i] !in faults
    decreases |steps|
  {
    if |steps| == 0 then None
    else if steps[0] in faults then Some(steps[0])
    else FirstFault(steps[1..], faults)
  }

  /** Writing the body of `req` when the writer calls in `faults` fail: the
      first failing call is reported, otherwise all parts are written. */
  function Encode(req: GraphRequest, faults: map<Step, Errors.Cause>): (r: Result<seq<Part>, Fault>)
    ensures r.Success? <==> forall s :: s in Steps(req) ==> s !in faults
    ensures r.Success? ==> r.value == Parts(req)
    ensures r.Failure? ==> r.error.step in Steps(req) && r.error.step in faults
    ensures r.Failure? ==> r.error.cause == faults[r.error.step]
    ensures r.Failure? ==> exists j :: 0 <= j < |Steps(req)| && Steps(req)[j] == r.error.step &&
                                      forall i :: 0 <= i < j ==> Steps(req)[i] !in faults
  {
    match FirstFault(Steps(req), faults)
    case Some(s) => Failure(Fault(s, faults[s]))
    case None => Success(Parts(req))
  }

  /** A fault-free prefix does not change which step fails first. */
  lemma {:induction false} FirstFaultConcat(a: seq<Step>, b: seq<Step>, faults: map<Step, Errors.Cause>)
    ensures FirstFault(a + b, faults) == if FirstFault(a, faults).Some? then FirstFault(a, faults) else FirstFault(b, faults)
    decreases |a|
  {
    if |a| == 0 {
      assert a + b == b;
    } else {
      assert (a + b)[0] == a[0];
      assert (a + b)[1..] == a[1..] + b;
      FirstFaultConcat(a[1..], b, faults);
    }
  }

  /** The parts are the query field first, then the variables field exactly
      when there are variables, then one part per attachment in attachment
      order. */
  lemma {:induction false} PartOrder(req: GraphRequest)
    ensures |Parts(req)| == |HeadParts(req)| + |req.files|
    ensures Parts(req)[0] == QueryField(req.query)
    ensures HasVariables(req) <==> |HeadParts(req)| == 2
    ensures HasVariables(req) ==> Parts(req)[1] == VariablesField(EffectiveVars(req))
    ensures forall i :: 0 <= i < |req.files| ==> Parts(req)[|HeadParts(req)| + i] == FilePartOf(req.files[i])
  {
    FilePartsIndex(req.files);
  }

  lemma {:induction false} FilePartsIndex(files: seq<FileUpload>)
    ensures |FileParts(files)| == |files|
    ensures forall i :: 0 <= i < |files| ==> FileParts(files)[i] == FilePartOf(files[i])
    decreases |files|
  {
    if 0 < |files| {
      FilePartsIndex(files[..|files| - 1]);
    }
  }

  /** The writer calls of runWithPostFields, stopping at the first error. */
  method Write(req: GraphRequest, faults: map<Step, Errors.Cause>) returns (r: Result<seq<Part>, Fault>)
    ensures r == Encode(req, faults)
  {
    var n := |req.files|;
    var rest := FileSteps(0, n) + [CloseWriter];
    assert Steps(req) == HeadSteps(req) + rest;
    FirstFaultConcat(HeadSteps(req), rest, faults);
    if WriteQuery in faults {
      return Failure(Fault(WriteQuery, faults[WriteQuery]));
    }
    var parts := [QueryField(req.query)];
    if HasVariables(req) {
      assert HeadSteps(req)[1..] == [CreateVariables, EncodeVariables];
      if CreateVariables in faults {
        return Failure(Fault(CreateVariables, faults[CreateVariables]));
      }
      if EncodeVariables in faults {
        return Failure(Fault(EncodeVariables, faults[EncodeVariables]));
      }
      parts := parts + [VariablesField(EffectiveVars(req))];
    }
    assert FirstFault(HeadSteps(req), faults).None?;
    var i := 0;
    while i < n
      invariant 0 <= i <= n
      invariant parts == HeadParts(req) + FileParts(req.files[..i])
      invariant FirstFault(Steps(req), faults) == FirstFault(FileSteps(i, n) + [CloseWriter], faults)
    {
      var after := FileSteps(i + 1, n) + [CloseWriter];
      assert FileSteps(i, n) + [CloseWriter] == [CreateFormFile(i), PrepareFile(i)] + after;
      FirstFaultConcat([CreateFormFile(i), PrepareFile(i)], after, faults);
      if CreateFormFile(i) in faults {
        return Failure(Fault(CreateFormFile(i), faults[CreateFormFile(i)]));
      }
      if PrepareFile(i) in faults {
        assert [CreateFormFile(i), PrepareFile(i)][1..] == [PrepareFile(i)];
        return Failure(Fault(PrepareFile(i), faults[PrepareFile(i)]));
      }
      assert [CreateFormFile(i), PrepareFile(i)][1..] == [PrepareFile(i)];
      assert req.files[..i + 1][..i] == req.files[..i];
      parts := parts + [FilePartOf(req.files[i])];
      i := i + 1;
    }
    if CloseWriter in faults {
      return Failure(Fault(CloseWriter, faults[CloseWriter]));
    }
    assert req.files[..n] == req.files;
    return Success(parts);
  }
}
