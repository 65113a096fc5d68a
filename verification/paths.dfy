/** Reference paths of the form `$.a.b.c`: `$` names the whole document and
    each `.`-separated segment after it names an object member. */
module Paths {
  import opened Wrappers

  /** A parsed reference path: the member names after the root `$`. */
  type Path = seq<string>

  const Separator: char := '.'
  const RootMarker: string := "$"

  /** Splits `s` at every separator; there is always at least one part and
      no part contains the separator. */
  function Split(s: string): (parts: seq<string>)
    ensures |parts| >= 1
    ensures forall i :: 0 <= i < |parts| ==> Separator !in parts[i]
    decreases |s|
  {
    if s == [] then [[]]
    else
      var rest := Split(s[1..]);
      if s[0] == Separator then [[]] + rest
      else [[s[0]] + rest[0]] + rest[1..]
  }

  /** Glues parts back together with the separator between them. */
  function Join(parts: seq<string>): string
    requires |parts| >= 1
    decreases |parts|
  {
    if |parts| == 1 then parts[0] else parts[0] + [Separator] + Join(parts[1..])
  }

  /** Every segment of `p` is free of the separator, so rendering is unambiguous. */
  predicate Segments(p: seq<string>) {
    forall i :: 0 <= i < |p| ==> Separator !in p[i]
  }

  /** Parses a reference path; anything not rooted at `$` is refused. */
  function Parse(s: string): (r: Result<Path>)
    ensures r.Ok? ==> Segments(r.value)
    ensures r.Err? ==> r.msg == "Invalid path: " + s
  {
    var parts := Split(s);
    if parts[0] == RootMarker then Ok(parts[1..]) else Err("Invalid path: " + s)
  }

  /** The textual form of a parsed path. */
  function Render(p: Path): string {
    Join([RootMarker] + p)
  }

  lemma {:induction false} JoinSplit(s: string)
    ensures Join(Split(s)) == s
    decreases |s|
  {
    if s != [] {
      JoinSplit(s[1..]);
      var rest := Split(s[1..]);
      if s[0] == Separator {
        assert ([[]] + rest)[1..] == rest;
      } else {
        var parts := [[s[0]] + rest[0]] + rest[1..];
        if |rest| == 1 {
        } else {
          assert parts[1..] == rest[1..];
          assert Join(rest) == rest[0] + [Separator] + Join(rest[1..]);
        }
      }
    }
  }

  /** Splitting a separator-free word followed by more text. */
  lemma {:induction false} SplitWord(w: string, t: string)
    requires Separator !in w
    ensures Split(w + t) == [w + Split(t)[0]] + Split(t)[1..]
    decreases |w|
  {
    if w != [] {
      assert (w + t)[1..] == w[1..] + t;
      SplitWord(w[1..], t);
      assert [w[0]] + (w[1..] + Split(t)[0]) == w + Split(t)[0];
    } else {
      var parts := Split(t);
      assert w + t == t && w + parts[0] == parts[0];
      assert [parts[0]] + parts[1..] == parts;
    }
  }

  lemma {:induction false} SplitJoin(parts: seq<string>)
    requires |parts| >= 1 && Segments(parts)
    ensures Split(Join(parts)) == parts
    decreases |parts|
  {
    if |parts| == 1 {
      SplitWord(parts[0], []);
      assert parts[0] + [] == parts[0];
    } else {
      var tail := Join(parts[1..]);
      SplitJoin(parts[1..]);
      assert parts[0] + [Separator] + tail == parts[0] + ([Separator] + tail);
      SplitWord(parts[0], [Separator] + tail);
      assert ([Separator] + tail)[1..] == tail;
      assert Split([Separator] + tail) == [[]] + parts[1..];
      assert parts[0] + [] == parts[0];
    }
  }

  /** Rendering then parsing gives the path back. */
  lemma ParseRender(p: Path)
    requires Segments(p)
    ensures Parse(Render(p)) == Ok(p)
  {
    var parts := [RootMarker] + p;
    assert Segments(parts) by {
      forall i | 0 <= i < |parts| ensures Separator !in parts[i] {
        if i > 0 { assert parts[i] == p[i - 1]; }
      }
    }
    SplitJoin(parts);
    assert parts[1..] == p;
  }

  /** A text that renders some path parses to that path. */
  lemma ParseRendering(s: string)
    ensures forall p :: Segments(p) && Render(p) == s ==> Parse(s) == Ok(p)
  {
    forall p | Segments(p) && Render(p) == s
      ensures Parse(s) == Ok(p)
    {
      ParseRender(p);
    }
  }

  /** Every accepted text is the rendering of the path it parses to. */
  lemma RenderParse(s: string)
    requires Parse(s).Ok?
    ensures Render(Parse(s).value) == s
  {
    var parts := Split(s);
    JoinSplit(s);
    assert [RootMarker] + parts[1..] == parts;
  }

  lemma RenderOne(a: string)
    ensures Render([a]) == "$." + a
  {
    var parts := [RootMarker] + [a];
    assert parts[1..] == [a];
    assert Join(parts) == "$" + [Separator] + a;
    assert "$" + [Separator] + a == "$." + a;
  }

  lemma RenderThree(a: string, b: string, c: string)
    ensures Render([a, b, c]) == "$." + a + "." + b + "." + c
  {
    var parts := [RootMarker] + [a, b, c];
    assert parts[1..] == [a, b, c];
    assert parts[1..][1..] == [b, c];
    assert parts[1..][1..][1..] == [c];
    assert Join([c]) == c;
    assert Join([b, c]) == b + [Separator] + c;
    assert Join([a, b, c]) == a + [Separator] + (b + [Separator] + c);
    assert Join(parts) == "$" + [Separator] + (a + [Separator] + (b + [Separator] + c));
  }
}
