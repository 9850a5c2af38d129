/**
 * The handler reference of a function declaration, such as
 * `homepage/index/handler.handler`: its last `/`-segment names the module
 * file (before the first `.`) and the exported function (after it).
 */
module HandlerRefs {
  import opened Wrappers
  import opened Strings

  /** The module file to load and the export to take from it (`undefined` when there is no `.`). */
  datatype HandlerRef = HandlerRef(file: string, exportName: Option<string>)

  /** `fun.handler.split('/').pop().split('.')`. */
  function HandlerParts(handler: string): (parts: seq<string>)
    ensures |parts| >= 1
    ensures forall i :: 0 <= i < |parts| ==> '/' !in parts[i] && '.' !in parts[i]
  {
    var segments := Split(handler, '/');
    var last := segments[|segments| - 1];
    Split(last, '.')
  }

  /** The file is part 0 plus `.js`; the export is part 1. */
  function ParseHandler(handler: string): (r: HandlerRef)
    ensures |r.file| >= 3 && r.file[|r.file| - 3..] == ".js"
    ensures '/' !in r.file[..|r.file| - 3] && '.' !in r.file[..|r.file| - 3]
    ensures r.exportName.Some? ==> '/' !in r.exportName.value && '.' !in r.exportName.value
  {
    var parts := HandlerParts(handler);
    var file := parts[0] + ".js";
    assert file[..|file| - 3] == parts[0];
    HandlerRef(file, if |parts| > 1 then Some(parts[1]) else None)
  }

  /** The last `/`-segment is all that matters: directories in front are ignored. */
  lemma {:induction false} ParseIgnoresDirectories(dir: string, name: string)
    requires '/' !in name
    ensures ParseHandler(dir + "/" + name) == ParseHandler(name)
  {
    SplitAround(dir, '/', name);
    SplitNoSeparator(name, '/');
    assert dir + "/" + name == dir + ['/'] + name;
  }

  /** `dir/stem.name` names file `stem.js` and export `name`. */
  lemma {:induction false} ParseQualified(dir: string, stem: string, exportName: string)
    requires '/' !in stem && '.' !in stem
    requires '/' !in exportName && '.' !in exportName
    ensures ParseHandler(dir + "/" + stem + "." + exportName) == HandlerRef(stem + ".js", Some(exportName))
  {
    var name := stem + "." + exportName;
    assert dir + "/" + stem + "." + exportName == dir + "/" + name;
    assert '/' !in name;
    ParseIgnoresDirectories(dir, name);
    SplitNoSeparator(name, '/');
    SplitAround(stem, '.', exportName);
    SplitNoSeparator(stem, '.');
    SplitNoSeparator(exportName, '.');
    assert name == stem + ['.'] + exportName;
  }

  /** A reference without a `.` names no export. */
  lemma {:induction false} ParseBare(dir: string, stem: string)
    requires '/' !in stem && '.' !in stem
    ensures ParseHandler(dir + "/" + stem) == HandlerRef(stem + ".js", None)
  {
    ParseIgnoresDirectories(dir, stem);
    SplitNoSeparator(stem, '/');
    SplitNoSeparator(stem, '.');
  }
}
