/** Reading and writing inside a document along a reference path. Writing
    never touches anything off the path: it rebuilds only the objects on it. */
module PathResolver {
  import opened Wrappers
  import opened JsonDoc
  import opened Paths

  /** The value at `path`, absent as soon as a segment names no member. */
  function Read(doc: Json, path: Path): Option<Json>
    decreases |path|
  {
    if path == [] then Some(doc)
    else
      match Member(doc, path[0])
      case None => None
      case Some(child) => Read(child, path[1..])
  }

  /** A copy of `doc` holding `v` at `path`; missing objects on the way are
      created, and a value on the way that is not an object is replaced by one. */
  function Write(doc: Json, path: Path, v: Json): Json
    decreases |path|
  {
    if path == [] then v
    else
      var fields := if doc.JObject? then doc.fields else map[];
      var child := if path[0] in fields then fields[path[0]] else EmptyObject;
      JObject(fields[path[0] := Write(child, path[1..], v)])
  }

  /** `p` and `q` part ways: at some position both have a segment and the two differ.
      Such a `q` addresses a sibling branch of `p`, never an ancestor or descendant. */
  predicate Diverge(p: Path, q: Path)
    decreases |p|
  {
    |p| > 0 && |q| > 0 && (p[0] != q[0] || Diverge(p[1..], q[1..]))
  }

  /** What was written is what is read back. */
  lemma {:induction false} ReadAfterWrite(doc: Json, path: Path, v: Json)
    ensures Read(Write(doc, path, v), path) == Some(v)
    decreases |path|
  {
    if path != [] {
      var fields := if doc.JObject? then doc.fields else map[];
      var child := if path[0] in fields then fields[path[0]] else EmptyObject;
      ReadAfterWrite(child, path[1..], v);
    }
  }

  /** A write leaves every sibling branch of its path unchanged. */
  lemma {:induction false} ReadBesideWrite(doc: Json, path: Path, v: Json, q: Path)
    requires Diverge(path, q)
    ensures Read(Write(doc, path, v), q) == Read(doc, q)
    decreases |path|
  {
    var fields := if doc.JObject? then doc.fields else map[];
    var child := if path[0] in fields then fields[path[0]] else EmptyObject;
    if path[0] == q[0] {
      ReadBesideWrite(child, path[1..], v, q[1..]);
      if path[0] !in fields {
        ReadNothingInEmpty(q[1..]);
      }
    }
  }

  lemma ReadNothingInEmpty(q: Path)
    requires q != []
    ensures Read(EmptyObject, q) == None
  {
  }

  /** Below the written path, the document reads like the written value. */
  lemma {:induction false} ReadBelowWrite(doc: Json, path: Path, v: Json, q: Path)
    ensures Read(Write(doc, path, v), path + q) == Read(v, q)
    decreases |path|
  {
    if path == [] {
      assert path + q == q;
    } else {
      var fields := if doc.JObject? then doc.fields else map[];
      var child := if path[0] in fields then fields[path[0]] else EmptyObject;
      assert (path + q)[0] == path[0] && (path + q)[1..] == path[1..] + q;
      ReadBelowWrite(child, path[1..], v, q);
    }
  }

  /** Writing back the value just read changes nothing. */
  lemma {:induction false} WriteWhatIsRead(doc: Json, path: Path)
    requires Read(doc, path).Some?
    ensures Write(doc, path, Read(doc, path).value) == doc
    decreases |path|
  {
    if path != [] {
      WriteWhatIsRead(doc.fields[path[0]], path[1..]);
      assert doc.fields[path[0] := doc.fields[path[0]]] == doc.fields;
    }
  }

  /** A second write at the same path overrides the first entirely. */
  lemma {:induction false} WriteTwice(doc: Json, path: Path, v: Json, w: Json)
    ensures Write(Write(doc, path, v), path, w) == Write(doc, path, w)
    decreases |path|
  {
    if path != [] {
      var fields := if doc.JObject? then doc.fields else map[];
      var child := if path[0] in fields then fields[path[0]] else EmptyObject;
      WriteTwice(child, path[1..], v, w);
      assert fields[path[0] := Write(child, path[1..], v)][path[0] := Write(child, path[1..], w)]
          == fields[path[0] := Write(child, path[1..], w)];
    }
  }

  /** Below the root, a write yields an object whose members are the old ones
      plus the first segment, all but that one untouched. */
  lemma WriteKeepsMembers(doc: Json, path: Path, v: Json)
    requires doc.JObject? && path != []
    ensures Write(doc, path, v).JObject?
    ensures Write(doc, path, v).fields.Keys == doc.fields.Keys + {path[0]}
    ensures forall k :: k in doc.fields && k != path[0] ==>
              Write(doc, path, v).fields[k] == doc.fields[k]
  {
  }
}
