/** Paths as the engine builds them: a `PathBuf` is kept as the list of
    segments pushed onto it, and `str::split('/')` and file extensions are
    modelled on strings. */
module Paths {
  import opened Base

  type PathBuf = seq<string>

  /** `s.split('/')`: always at least one piece; empty pieces are kept. */
  function Split(s: string): (r: seq<string>)
    ensures |r| >= 1
    ensures forall p :: p in r ==> '/' !in p
  {
    if s == [] then [""]
    else if s[0] == '/' then [""] + Split(s[1..])
    else
      var rest := Split(s[1..]);
      [[s[0]] + rest[0]] + rest[1..]
  }

  /** Pieces glued back together with '/'. */
  function Join(parts: seq<string>): string
    requires |parts| >= 1
  {
    if |parts| == 1 then parts[0] else parts[0] + "/" + Join(parts[1..])
  }

  lemma {:induction false} JoinSplit(s: string)
    ensures Join(Split(s)) == s
  {
    if s == [] {
    } else if s[0] == '/' {
      JoinSplit(s[1..]);
      assert Join([""] + Split(s[1..])) == "" + "/" + Join(Split(s[1..]));
    } else {
      var rest := Split(s[1..]);
      JoinSplit(s[1..]);
      var r := [[s[0]] + rest[0]] + rest[1..];
      if |rest| == 1 {
        assert r == [[s[0]] + rest[0]];
      } else {
        assert r[1..] == rest[1..];
        assert Join(rest) == rest[0] + "/" + Join(rest[1..]);
      }
    }
  }

  /** Splitting a piece free of '/' followed by more text. */
  lemma {:induction false} SplitPrefix(p: string, t: string)
    requires '/' !in p
    ensures Split(p + t) == [p + Split(t)[0]] + Split(t)[1..]
  {
    if p != [] {
      assert (p + t)[1..] == p[1..] + t;
      assert (p + t)[0] == p[0];
      SplitPrefix(p[1..], t);
      assert [p[0]] + (p[1..] + Split(t)[0]) == p + Split(t)[0];
    } else {
      assert p + t == t;
      assert p + Split(t)[0] == Split(t)[0];
      assert Split(t) == [Split(t)[0]] + Split(t)[1..];
    }
  }

  lemma {:induction false} SplitJoin(parts: seq<string>)
    requires |parts| >= 1
    requires forall p :: p in parts ==> '/' !in p
    ensures Split(Join(parts)) == parts
  {
    if |parts| == 1 {
      SplitPrefix(parts[0], "");
      assert parts[0] + "" == parts[0];
    } else {
      var tail := Join(parts[1..]);
      SplitJoin(parts[1..]);
      assert Split("/" + tail) == [""] + Split(tail);
      assert parts[0] + "/" + tail == parts[0] + ("/" + tail);
      SplitPrefix(parts[0], "/" + tail);
      assert parts[0] + "" == parts[0];
    }
  }

  /** Index of the last '.' in `name`, if any. */
  function LastDot(name: string): (r: Option<nat>)
    ensures r.Some? ==> r.value < |name| && name[r.value] == '.'
    ensures r.Some? ==> forall k :: r.value < k < |name| ==> name[k] != '.'
    ensures r.None? ==> '.' !in name
  {
    if name == [] then None
    else if name[|name| - 1] == '.' then Some(|name| - 1)
    else LastDot(name[..|name| - 1])
  }

  /** `Path::extension` of a file name: the text after the last '.', unless
      the name is ".." or that '.' is its first character. */
  function Extension(name: string): Option<string> {
    if name == ".." then None
    else match LastDot(name)
      case None => None
      case Some(i) => if i == 0 then None else Some(name[i + 1..])
  }

  /** `Path::file_stem` of a file name. */
  function Stem(name: string): string {
    if name == ".." then name
    else match LastDot(name)
      case None => name
      case Some(i) => if i == 0 then name else name[..i]
  }

  /** `PathBuf::set_extension`: the last segment keeps its stem and gets the
      new extension; a path with no file name is left alone. */
  function SetExtension(path: PathBuf, ext: string): (r: PathBuf)
    ensures |r| == |path| && (path != [] ==> r[..|r| - 1] == path[..|path| - 1])
  {
    if path == [] || path[|path| - 1] == ".." then path
    else
      var name := path[|path| - 1];
      path[..|path| - 1] + [Stem(name) + (if ext == [] then [] else "." + ext)]
  }

  /** The segment `set_extension` produces: stem, '.', new extension. */
  lemma DottedName(stem: string, ext: string)
    requires stem != [] && ext != [] && '.' !in ext
    ensures Extension(stem + "." + ext) == Some(ext)
    ensures Stem(stem + "." + ext) == stem
  {
    var name := stem + "." + ext;
    assert name[|stem|] == '.';
    forall k | |stem| < k < |name|
      ensures name[k] != '.'
    {
      assert name[k] == ext[k - |stem| - 1];
    }
    LastDotAt(name, |stem|);
    assert name[|stem| + 1..] == ext;
    assert name[..|stem|] == stem;
  }

  lemma StemNotEmpty(name: string)
    requires name != []
    ensures Stem(name) != []
  {
  }

  lemma SetExtensionStem(path: PathBuf, ext: string)
    requires path != [] && path[|path| - 1] != ".." && path[|path| - 1] != []
    requires ext != [] && '.' !in ext
    ensures var name' := SetExtension(path, ext)[|path| - 1];
      Extension(name') == Some(ext) && Stem(name') == Stem(path[|path| - 1])
  {
    var name := path[|path| - 1];
    StemNotEmpty(name);
    DottedName(Stem(name), ext);
    assert SetExtension(path, ext)[|path| - 1] == Stem(name) + "." + ext;
  }

  lemma {:induction false} LastDotAt(name: string, i: nat)
    requires i < |name| && name[i] == '.'
    requires forall k :: i < k < |name| ==> name[k] != '.'
    ensures LastDot(name) == Some(i)
  {
    if i != |name| - 1 {
      var init := name[..|name| - 1];
      LastDotAt(init, i);
    }
  }
}
