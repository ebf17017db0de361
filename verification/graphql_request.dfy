/** GraphRequest: a query fixed at construction, lazily allocated variables,
    an append-only list of file attachments, and caller headers. */
module GraphqlRequest {
  import opened Wrappers
  import Json
  import HttpHeader

  type byte = x: int | 0 <= x < 256

  /** Go's `File`: the form field, the file name, and the bytes the
      attachment's `io.Reader` yields. */
  datatype FileUpload = FileUpload(field: string, name: string, content: seq<byte>)

  /** `vars` is `None` while Go's map is nil, i.e. before the first `Var`. */
  datatype GraphRequest = GraphRequest(
    query: string,
    vars: Option<map<string, Json.Value>>,
    files: seq<FileUpload>,
    header: HttpHeader.Header)

  /** `NewGraphqlRequest`. */
  function NewGraphqlRequest(query: string): (req: GraphRequest)
    ensures Query(req) == query
    ensures Vars(req).None? && EffectiveVars(req) == map[]
    ensures Files(req) == []
    ensures req.header == map[]
  {
    GraphRequest(query, None, [], map[])
  }

  /** `Vars`: the variable map as stored, nil included. */
  function Vars(req: GraphRequest): Option<map<string, Json.Value>>
  {
    req.vars
  }

  /** `Files`. */
  function Files(req: GraphRequest): seq<FileUpload>
  {
    req.files
  }

  /** `Query`. */
  function Query(req: GraphRequest): string
  {
    req.query
  }

  /** The variables as Go code reads them: a nil map behaves as empty. */
  function EffectiveVars(req: GraphRequest): map<string, Json.Value>
  {
    match req.vars
    case None => map[]
    case Some(m) => m
  }

  /** `Var`: allocates the map if needed, then sets `key` to `value`. */
  function Var(req: GraphRequest, key: string, value: Json.Value): (r: GraphRequest)
    ensures Vars(r).Some?
    ensures Get(EffectiveVars(r), key) == Some(value)
    ensures forall k :: k != key ==> Get(EffectiveVars(r), k) == Get(EffectiveVars(req), k)
    ensures EffectiveVars(r).Keys == EffectiveVars(req).Keys + {key}
    ensures Query(r) == Query(req) && Files(r) == Files(req) && r.header == req.header
  {
    var m := if req.vars.None? then map[] else req.vars.value;
    req.(vars := Some(m[key := value]))
  }

  /** `File`: appends one attachment after the existing ones. */
  function File(req: GraphRequest, field: string, name: string, content: seq<byte>): (r: GraphRequest)
    ensures |Files(r)| == |Files(req)| + 1
    ensures Files(r)[..|Files(req)|] == Files(req)
    ensures Files(r)[|Files(req)|] == FileUpload(field, name, content)
    ensures Query(r) == Query(req) && Vars(r) == Vars(req) && r.header == req.header
  {
    req.(files := req.files + [FileUpload(field, name, content)])
  }

  /** Writing a key twice keeps only the second value. */
  lemma VarLastWriteWins(req: GraphRequest, key: string, v1: Json.Value, v2: Json.Value)
    ensures Var(Var(req, key, v1), key, v2) == Var(req, key, v2)
  {
    var m := EffectiveVars(req);
    assert EffectiveVars(Var(req, key, v1)) == m[key := v1];
    assert m[key := v1][key := v2] == m[key := v2];
  }

  /** One call on the builder. */
  datatype BuildStep =
    | SetVar(key: string, value: Json.Value)
    | AttachFile(field: string, name: string, content: seq<byte>)

  function Apply(req: GraphRequest, step: BuildStep): GraphRequest
  {
    match step
    case SetVar(k, v) => Var(req, k, v)
    case AttachFile(f, n, c) => File(req, f, n, c)
  }

  /** The request after the calls of `steps`, first to last. */
  function Replay(req: GraphRequest, steps: seq<BuildStep>): GraphRequest
    decreases |steps|
  {
    if |steps| == 0 then req else Apply(Replay(req, steps[..|steps| - 1]), steps[|steps| - 1])
  }

  /** The value of the last `SetVar` of `key` in `steps`, if any. */
  function LastWrite(steps: seq<BuildStep>, key: string): Option<Json.Value>
    decreases |steps|
  {
    if |steps| == 0 then None
    else
      var last := steps[|steps| - 1];
      if last.SetVar? && last.key == key then Some(last.value)
      else LastWrite(steps[..|steps| - 1], key)
  }

  /** Whether `steps` sets any variable at all. */
  predicate SetsAnyVar(steps: seq<BuildStep>)
    decreases |steps|
  {
    0 < |steps| && (steps[|steps| - 1].SetVar? || SetsAnyVar(steps[..|steps| - 1]))
  }

  /** The attachments of `steps`, in call order. */
  function Attachments(steps: seq<BuildStep>): seq<FileUpload>
    decreases |steps|
  {
    if |steps| == 0 then []
    else
      var last := steps[|steps| - 1];
      var earlier := Attachments(steps[..|steps| - 1]);
      if last.AttachFile? then earlier + [FileUpload(last.field, last.name, last.content)]
      else earlier
  }

  /** Any sequence of builder calls: the query and headers never change, the
      attachments are the earlier ones followed by the new ones in call
      order, each variable holds the value of its last write (or its earlier
      value when never written), and the map stays nil exactly when it was
      nil and no variable was set. */
  lemma {:induction false} ReplayEffect(req: GraphRequest, steps: seq<BuildStep>)
    ensures Query(Replay(req, steps)) == Query(req)
    ensures Replay(req, steps).header == req.header
    ensures Files(Replay(req, steps)) == Files(req) + Attachments(steps)
    ensures Vars(Replay(req, steps)).None? <==> Vars(req).None? && !SetsAnyVar(steps)
    ensures forall key :: LastWrite(steps, key).Some? ==>
              Get(EffectiveVars(Replay(req, steps)), key) == LastWrite(steps, key)
    ensures forall key :: LastWrite(steps, key).None? ==>
              Get(EffectiveVars(Replay(req, steps)), key) == Get(EffectiveVars(req), key)
    decreases |steps|
  {
    if |steps| > 0 {
      var prefix := steps[..|steps| - 1];
      ReplayEffect(req, prefix);
      var before := Replay(req, prefix);
      var last := steps[|steps| - 1];
      assert Replay(req, steps) == Apply(before, last);
      match last
      case SetVar(k, v) =>
      case AttachFile(f, n, c) =>
        assert Files(req) + Attachments(steps) == Files(req) + Attachments(prefix) + [FileUpload(f, n, c)];
    }
  }

  /** A request built from scratch: it holds exactly the last write of every
      variable, and no variable map until the first write. */
  lemma {:induction false} BuildFromNew(query: string, steps: seq<BuildStep>)
    ensures Query(Replay(NewGraphqlRequest(query), steps)) == query
    ensures Files(Replay(NewGraphqlRequest(query), steps)) == Attachments(steps)
    ensures Vars(Replay(NewGraphqlRequest(query), steps)).None? <==> !SetsAnyVar(steps)
    ensures forall key :: Get(EffectiveVars(Replay(NewGraphqlRequest(query), steps)), key) == LastWrite(steps, key)
  {
    ReplayEffect(NewGraphqlRequest(query), steps);
  }
}
