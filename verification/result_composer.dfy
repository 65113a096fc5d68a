/** The two data-flow rules of a state: InputPath chooses what the state
    works on, ResultPath chooses where its result lands in the document. */
module ResultComposer {
  import opened Wrappers
  import opened JsonDoc
  import opened Paths
  import opened PathResolver

  /** The three forms an InputPath can take: no field at all, an explicit
      `null`, or a reference path. Absent and null mean different things. */
  datatype InputPath = Absent | Null | At(path: Path)

  /** The value a state works on: the whole document when InputPath is absent,
      `{}` when it is null, the addressed value (if any) for a path. */
  function SelectInput(doc: Json, inputPath: InputPath): (r: Option<Json>)
    ensures inputPath.Absent? ==> r == Some(doc)
    ensures inputPath.Null? ==> r == Some(EmptyObject)
    ensures inputPath.At? && r.Some? ==> Write(doc, inputPath.path, r.value) == doc
    ensures inputPath.At? && r.None? ==> inputPath.path != [] && Read(doc, inputPath.path).None?
  {
    match inputPath
    case Absent => Some(doc)
    case Null => Some(EmptyObject)
    case At(path) =>
      var r := Read(doc, path);
      if r.Some? then WriteWhatIsRead(doc, path); r else r
  }

  /** The root path `$` selects exactly what an absent InputPath selects. */
  lemma RootPathSelectsWhole(doc: Json)
    ensures SelectInput(doc, At([])) == SelectInput(doc, Absent)
  {
  }

  /** The document after a result is stored at `resultPath`: the result is found
      there, and every branch beside the path reads as before. */
  function MergeResult(doc: Json, resultPath: Path, result: Json): (r: Json)
    ensures Read(r, resultPath) == Some(result)
    ensures forall q :: Diverge(resultPath, q) ==> Read(r, q) == Read(doc, q)
    ensures forall q :: Read(r, resultPath + q) == Read(result, q)
  {
    var r := Write(doc, resultPath, result);
    ReadAfterWrite(doc, resultPath, result);
    forall q | Diverge(resultPath, q) ensures Read(r, q) == Read(doc, q) {
      ReadBesideWrite(doc, resultPath, result, q);
    }
    forall q ensures Read(r, resultPath + q) == Read(result, q) {
      ReadBelowWrite(doc, resultPath, result, q);
    }
    r
  }
}
