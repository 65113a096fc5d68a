/** State declarations as they appear in a workflow definition, and their
    decoding from the definition's JSON into a typed record. */
module Definitions {
  import opened Wrappers
  import opened JsonDoc
  import opened Paths
  import opened ResultComposer

  /** The state kinds this interpreter executes. */
  datatype Kind = Task | Pass | Succeed | Fail

  /** What a `Type` field denotes: an executable kind, a kind of the language
      this interpreter does not execute, or no kind at all. */
  datatype TypeTag = Supported(kind: Kind) | Unsupported(name: string) | Invalid(name: string)

  function KindName(k: Kind): string {
    match k
    case Task => "Task"
    case Pass => "Pass"
    case Succeed => "Succeed"
    case Fail => "Fail"
  }

  function Classify(name: string): TypeTag {
    if name == "Task" then Supported(Task)
    else if name == "Pass" then Supported(Pass)
    else if name == "Succeed" then Supported(Succeed)
    else if name == "Fail" then Supported(Fail)
    else if name in {"Choice", "Parallel", "Wait", "Map"} then Unsupported(name)
    else Invalid(name)
  }

  /** `Classify` and `KindName` are inverse: a kind is recognised exactly by its own name. */
  lemma ClassifyKindName(k: Kind, name: string)
    ensures Classify(name) == Supported(k) <==> name == KindName(k)
  {
  }

  /** An unrecognised name is reported back unchanged. */
  lemma ClassifyKeepsName(name: string)
    ensures !Classify(name).Supported? ==> Classify(name).name == name
  {
  }

  /** One state's declaration. Only the fields the interpreter reads are kept. */
  datatype StateSpec = StateSpec(
    kind: Kind,
    resource: Option<string>,
    inputPath: InputPath,
    input: Option<Json>,
    resultPath: Option<Path>,
    next: Option<string>,
    isEnd: bool)
  {
    /** Succeed and Fail end the run whatever else is declared; other kinds end it on `End: true`. */
    predicate Terminal() {
      kind.Succeed? || kind.Fail? || isEnd
    }
  }

  function InvalidType(name: string): string {
    "Invalid Type: " + name
  }

  function UnsupportedType(name: string): string {
    "Unsupported Type: " + name
  }

  /** An optional string field; present with another kind of value is an error. */
  function StringField(state: Json, key: string): (r: Result<Option<string>>)
    ensures r.Ok? && r.value.Some? <==> Member(state, key).Some? && Member(state, key).value.JString?
    ensures r.Ok? && r.value.Some? ==> Member(state, key).value.s == r.value.value
    ensures r.Ok? <==> Member(state, key).None? || Member(state, key).value.JString?
  {
    match Member(state, key)
    case None => Ok(None)
    case Some(JString(s)) => Ok(Some(s))
    case Some(_) => Err("Invalid " + key)
  }

  /** The three-way InputPath field: no field, `null`, or a `$`-rooted path string. */
  function DecodeInputPath(state: Json): (r: Result<InputPath>)
    // a decoded InputPath is exactly what the field declares
    ensures r.Ok? ==> InputPathField(r.value) == Member(state, "InputPath")
    ensures r.Ok? && r.value.At? ==> Segments(r.value.path)
    // every declaration is decoded: no field, `null`, and the text of any path
    ensures Member(state, "InputPath").None? ==> r == Ok(Absent)
    ensures Member(state, "InputPath") == Some(JNull) ==> r == Ok(Null)
    ensures forall p :: Segments(p) && Member(state, "InputPath") == Some(JString(Render(p))) ==> r == Ok(At(p))
    // a string that is no path, and any other kind of value, are refused
    ensures Member(state, "InputPath").Some? && Member(state, "InputPath").value.JString?
            && Parse(Member(state, "InputPath").value.s).Err? ==>
              r == Err("Invalid path: " + Member(state, "InputPath").value.s)
    ensures Member(state, "InputPath").Some? && !Member(state, "InputPath").value.JNull?
            && !Member(state, "InputPath").value.JString? ==>
              r == Err("Invalid InputPath")
  {
    match Member(state, "InputPath")
    case None => Ok(Absent)
    case Some(JNull) => Ok(Null)
    case Some(JString(s)) =>
      ParseRendering(s);
      var p :- Parse(s);
      RenderParse(s);
      Ok(At(p))
    case Some(_) => Err("Invalid InputPath")
  }

  /** The ResultPath field: no field, or a `$`-rooted path string. */
  function DecodeResultPath(state: Json): (r: Result<Option<Path>>)
    // a decoded ResultPath is exactly what the field declares
    ensures r.Ok? ==> ResultPathField(r.value) == Member(state, "ResultPath")
    ensures r.Ok? && r.value.Some? ==> Segments(r.value.value)
    // every declaration is decoded: no field, and the text of any path
    ensures Member(state, "ResultPath").None? ==> r == Ok(None)
    ensures forall p :: Segments(p) && Member(state, "ResultPath") == Some(JString(Render(p))) ==> r == Ok(Some(p))
    // a string that is no path, and any other kind of value, are refused
    ensures Member(state, "ResultPath").Some? && Member(state, "ResultPath").value.JString?
            && Parse(Member(state, "ResultPath").value.s).Err? ==>
              r == Err("Invalid path: " + Member(state, "ResultPath").value.s)
    ensures Member(state, "ResultPath").Some? && !Member(state, "ResultPath").value.JString? ==>
              r == Err("Invalid ResultPath")
  {
    match Member(state, "ResultPath")
    case None => Ok(None)
    case Some(JString(s)) =>
      ParseRendering(s);
      var p :- Parse(s);
      RenderParse(s);
      Ok(Some(p))
    case Some(_) => Err("Invalid ResultPath")
  }

  /** The text of a state's `Type`, converted the way JavaScript converts it to a string. */
  function TypeName(state: Json): string {
    JsText(Member(state, "Type"))
  }

  /** Decodes one state. The `Type` is checked before anything else, so an
      unknown type is reported even when the rest of the state is malformed. */
  function DecodeState(state: Json): (r: Result<StateSpec>)
    ensures Classify(TypeName(state)).Invalid? ==> r == Err(InvalidType(TypeName(state)))
    ensures Classify(TypeName(state)).Unsupported? ==> r == Err(UnsupportedType(TypeName(state)))
    ensures r.Ok? ==> Classify(TypeName(state)) == Supported(r.value.kind)
    ensures r.Ok? ==> (r.value.isEnd <==> Member(state, "End") == Some(JBool(true)))
    ensures r.Ok? ==> r.value.input == Member(state, "Input")
    // every other field of a decoded state is exactly what the declaration holds
    ensures r.Ok? ==> OptionalText(r.value.resource) == Member(state, "Resource")
    ensures r.Ok? ==> InputPathField(r.value.inputPath) == Member(state, "InputPath")
    ensures r.Ok? ==> ResultPathField(r.value.resultPath) == Member(state, "ResultPath")
    ensures r.Ok? ==> OptionalText(r.value.next) == Member(state, "Next")
    ensures r.Ok? ==> WellFormed(r.value)
    // with a known type, a malformed field is reported, Resource first
    ensures Classify(TypeName(state)).Supported? && Member(state, "Resource").Some?
            && !Member(state, "Resource").value.JString? ==>
              r == Err("Invalid Resource")
  {
    match Classify(TypeName(state))
    case Invalid(name) => Err(InvalidType(name))
    case Unsupported(name) => Err(UnsupportedType(name))
    case Supported(kind) =>
      var resource :- StringField(state, "Resource");
      var inputPath :- DecodeInputPath(state);
      var resultPath :- DecodeResultPath(state);
      var next :- StringField(state, "Next");
      Ok(StateSpec(kind, resource, inputPath, Member(state, "Input"), resultPath, next,
                   Member(state, "End") == Some(JBool(true))))
  }

  /** The paths a declaration holds can be written down and read back. */
  predicate WellFormed(spec: StateSpec) {
    && (spec.inputPath.At? ==> Segments(spec.inputPath.path))
    && (spec.resultPath.Some? ==> Segments(spec.resultPath.value))
  }

  function OptionalText(v: Option<string>): Option<Json> {
    if v.Some? then Some(JString(v.value)) else None
  }

  /** The InputPath field that declares `inputPath`: missing, `null`, or the path's text. */
  function InputPathField(inputPath: InputPath): Option<Json> {
    match inputPath
    case Absent => None
    case Null => Some(JNull)
    case At(p) => Some(JString(Render(p)))
  }

  function ResultPathField(resultPath: Option<Path>): Option<Json> {
    if resultPath.Some? then Some(JString(Render(resultPath.value))) else None
  }

  /** A state decodes to `spec` as soon as each field it carries declares what `spec` holds. */
  lemma DecodeFromMembers(state: Json, spec: StateSpec)
    requires WellFormed(spec)
    requires Member(state, "Type") == Some(JString(KindName(spec.kind)))
    requires Member(state, "Resource") == OptionalText(spec.resource)
    requires Member(state, "InputPath") == InputPathField(spec.inputPath)
    requires Member(state, "Input") == spec.input
    requires Member(state, "ResultPath") == ResultPathField(spec.resultPath)
    requires Member(state, "Next") == OptionalText(spec.next)
    requires spec.isEnd <==> Member(state, "End") == Some(JBool(true))
    ensures DecodeState(state) == Ok(spec)
  {
    TypeOfKind(state, spec.kind);
    if spec.inputPath.At? {
      InputPathOfText(state, spec.inputPath.path);
    }
    if spec.resultPath.Some? {
      ResultPathOfText(state, spec.resultPath.value);
    }
    assert StringField(state, "Resource") == Ok(spec.resource);
    assert StringField(state, "Next") == Ok(spec.next);
  }

  /** `m` with `key` set to the value `v` holds, unchanged when `v` is absent. */
  function Put(m: map<string, Json>, key: string, v: Option<Json>): (r: map<string, Json>)
    ensures key in r <==> key in m || v.Some?
    ensures v.Some? ==> r[key] == v.value
    ensures v.None? && key in m ==> r[key] == m[key]
    ensures forall k :: k != key ==> (k in r <==> k in m)
    ensures forall k :: k != key && k in m ==> r[k] == m[k]
  {
    if v.Some? then m[key := v.value] else m
  }

  /** The JSON declaration of a state: only the fields it needs are present. */
  function EncodeState(spec: StateSpec): Json {
    var m := Put(EncodeHead(spec), "Input", spec.input);
    var m := Put(m, "ResultPath", ResultPathField(spec.resultPath));
    var m := Put(m, "Next", OptionalText(spec.next));
    var m := Put(m, "End", if spec.isEnd then Some(JBool(true)) else None);
    JObject(m)
  }

  /** The fields the encoder writes before `Input`. */
  function EncodeHead(spec: StateSpec): map<string, Json> {
    var m := map["Type" := JString(KindName(spec.kind))];
    var m := Put(m, "Resource", OptionalText(spec.resource));
    Put(m, "InputPath", InputPathField(spec.inputPath))
  }

  lemma EncodeHeadMembers(spec: StateSpec)
    ensures Member(JObject(EncodeHead(spec)), "Type") == Some(JString(KindName(spec.kind)))
    ensures Member(JObject(EncodeHead(spec)), "Resource") == OptionalText(spec.resource)
    ensures Member(JObject(EncodeHead(spec)), "InputPath") == InputPathField(spec.inputPath)
    ensures Member(JObject(EncodeHead(spec)), "Input") == None
    ensures Member(JObject(EncodeHead(spec)), "ResultPath") == None
    ensures Member(JObject(EncodeHead(spec)), "Next") == None
    ensures Member(JObject(EncodeHead(spec)), "End") == None
  {
  }

  /** An encoded state declares its type, resource and input path as `spec` does. */
  lemma EncodeStateHead(spec: StateSpec)
    ensures Member(EncodeState(spec), "Type") == Some(JString(KindName(spec.kind)))
    ensures Member(EncodeState(spec), "Resource") == OptionalText(spec.resource)
    ensures Member(EncodeState(spec), "InputPath") == InputPathField(spec.inputPath)
  {
    EncodeHeadMembers(spec);
    EncodeMember(spec, "Type");
    EncodeMember(spec, "Resource");
    EncodeMember(spec, "InputPath");
  }

  /** An encoded state declares its input, result path, successor and end flag as `spec` does. */
  lemma EncodeStateTail(spec: StateSpec)
    ensures Member(EncodeState(spec), "Input") == spec.input
    ensures Member(EncodeState(spec), "ResultPath") == ResultPathField(spec.resultPath)
    ensures Member(EncodeState(spec), "Next") == OptionalText(spec.next)
    ensures spec.isEnd <==> Member(EncodeState(spec), "End") == Some(JBool(true))
  {
    EncodeHeadMembers(spec);
    EncodeMember(spec, "Input");
    EncodeMember(spec, "ResultPath");
    EncodeMember(spec, "Next");
    EncodeMember(spec, "End");
  }

  /** What one key of an encoded state reads: the last field written under it wins. */
  lemma EncodeMember(spec: StateSpec, k: string)
    ensures Member(EncodeState(spec), k) ==
      if k == "End" && spec.isEnd then Some(JBool(true))
      else if k == "Next" && spec.next.Some? then OptionalText(spec.next)
      else if k == "ResultPath" && spec.resultPath.Some? then ResultPathField(spec.resultPath)
      else if k == "Input" && spec.input.Some? then spec.input
      else Member(JObject(EncodeHead(spec)), k)
  {
    var h := EncodeHead(spec);
    var m1 := Put(h, "Input", spec.input);
    var m2 := Put(m1, "ResultPath", ResultPathField(spec.resultPath));
    var m3 := Put(m2, "Next", OptionalText(spec.next));
    PutMember(h, "Input", spec.input, k);
    PutMember(m1, "ResultPath", ResultPathField(spec.resultPath), k);
    PutMember(m2, "Next", OptionalText(spec.next), k);
    PutMember(m3, "End", if spec.isEnd then Some(JBool(true)) else None, k);
  }

  /** How `Put` changes what one key reads. */
  lemma PutMember(m: map<string, Json>, key: string, v: Option<Json>, k: string)
    ensures Member(JObject(Put(m, key, v)), k) ==
      if k == key && v.Some? then v else Member(JObject(m), k)
  {
  }

  /** Decoding reads back every declaration the encoder writes. */
  lemma DecodeEncode(spec: StateSpec)
    requires WellFormed(spec)
    ensures DecodeState(EncodeState(spec)) == Ok(spec)
  {
    EncodeStateHead(spec);
    EncodeStateTail(spec);
    DecodeFromMembers(EncodeState(spec), spec);
  }

  /** A `Type` naming a kind decodes to that kind. */
  lemma TypeOfKind(state: Json, kind: Kind)
    requires Member(state, "Type") == Some(JString(KindName(kind)))
    ensures Classify(TypeName(state)) == Supported(kind)
  {
    ClassifyKindName(kind, KindName(kind));
  }

  /** An InputPath field holding a rendered path decodes to that path. */
  lemma InputPathOfText(state: Json, path: Path)
    requires Segments(path)
    requires Member(state, "InputPath") == Some(JString(Render(path)))
    ensures DecodeInputPath(state) == Ok(At(path))
  {
    ParseRender(path);
  }

  /** A ResultPath field holding a rendered path decodes to that path. */
  lemma ResultPathOfText(state: Json, path: Path)
    requires Segments(path)
    requires Member(state, "ResultPath") == Some(JString(Render(path)))
    ensures DecodeResultPath(state) == Ok(Some(path))
  {
    ParseRender(path);
  }
}
