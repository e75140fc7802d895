/**
 * Parser dispatch: a file's extension picks one of six parser names, and a
 * module-level cache maps each parser name to its class once the class has
 * been imported.  Importing is a parameter of the model (`Loader`): it says,
 * for a module path and a class name, whether the import succeeds.
 */
module ParserRegistry {
  import opened Text

  /** The parser names the cache starts with, in its insertion order. */
  const DefaultParserNames: seq<string> := ["python", "cpp", "php", "javascript", "go", "java"]

  /** `get_parser_for_file`'s choice of parser name for an already lower-cased extension. */
  function ParserNameForExtension(ext: string): (r: Option<string>)
    ensures r.Some? ==> r.value in DefaultParserNames
  {
    if ext == ".py" then Some("python")
    else if ext in [".c", ".cpp", ".cc", ".h", ".hpp"] then Some("cpp")
    else if ext == ".php" then Some("php")
    else if ext in [".js", ".jsx"] then Some("javascript")
    else if ext == ".go" then Some("go")
    else if ext == ".java" then Some("java")
    else None
  }

  /** The parser name for a file path: the extension is lower-cased first. */
  function ParserNameForFile(path: string): Option<string>
  {
    ParserNameForExtension(Lower(Extension(path)))
  }

  /** The dispatch table written as a map: extension to parser name. */
  const ExtensionTable: map<string, string> := map[
    ".py" := "python",
    ".c" := "cpp", ".cpp" := "cpp", ".cc" := "cpp", ".h" := "cpp", ".hpp" := "cpp",
    ".php" := "php",
    ".js" := "javascript", ".jsx" := "javascript",
    ".go" := "go",
    ".java" := "java"
  ]

  /** The `if` chain chooses exactly what the table says, and nothing for any other extension. */
  lemma DispatchIsTable(ext: string)
    ensures ParserNameForExtension(ext).Some? <==> ext in ExtensionTable
    ensures ext in ExtensionTable ==> ParserNameForExtension(ext) == Some(ExtensionTable[ext])
  {
  }

  /** TypeScript files, and any extension outside the table, have no parser. */
  lemma NoTypescriptParser()
    ensures ParserNameForExtension(".ts") == None && ParserNameForExtension(".tsx") == None
  {
  }

  /** Upper-case extensions dispatch like their lower-case forms. */
  lemma DispatchIgnoresCase(stem: string, ext: string)
    requires |stem| > 0 && stem[0] != '.' && '/' !in stem
    requires '.' !in ext && '/' !in ext
    ensures ParserNameForFile(stem + "." + ext) == ParserNameForExtension(Lower("." + ext))
    ensures ParserNameForFile(stem + "." + Upper(ext)) == ParserNameForExtension(Lower("." + ext))
  {
    ExtensionOf(stem, ext);
    UpperKeepsSeparators(ext);
    ExtensionOf(stem, Upper(ext));
    LowerOfUpper("." + ext);
    UpperAfterDot(ext);
  }

  lemma UpperAfterDot(ext: string)
    ensures "." + Upper(ext) == Upper("." + ext)
  {
    assert ("." + ext)[1..] == ext;
  }

  lemma UpperKeepsSeparators(s: string)
    ensures '.' !in s ==> '.' !in Upper(s)
    ensures '/' !in s ==> '/' !in Upper(s)
  {
    if '.' !in s {
      forall i | 0 <= i < |s| ensures Upper(s)[i] != '.' { assert s[i] != '.'; }
    }
    if '/' !in s {
      forall i | 0 <= i < |s| ensures Upper(s)[i] != '/' { assert s[i] != '/'; }
    }
  }

  /** Lower-casing forgets an earlier upper-casing. */
  lemma LowerOfUpper(s: string)
    ensures Lower(Upper(s)) == Lower(s)
  {
    assert forall i :: 0 <= i < |s| ==> Lower(Upper(s))[i] == Lower(s)[i];
  }

  /** A module path and a class name; the classes the import machinery can hand out. */
  datatype ParserClass = ParserClass(moduleName: string, className: string)

  /** `name.capitalize()`: the first letter upper-cased, the rest lower-cased. */
  function Capitalize(s: string): (r: string)
    ensures |r| == |s|
    ensures |s| > 0 ==> r[0] == UpperChar(s[0])
    ensures forall i :: 0 < i < |s| ==> r[i] == LowerChar(s[i])
  {
    if |s| == 0 then "" else [UpperChar(s[0])] + Lower(s[1..])
  }

  /** The class `_get_parser` imports for a parser name: `c_cpp_parser.CCppParser` for "cpp". */
  function ImportTarget(name: string): (c: ParserClass)
    ensures name == "cpp" ==> c == ParserClass("src.parsers.c_cpp_parser", "CCppParser")
    ensures name != "cpp" ==> c.moduleName == "src.parsers." + name + "_parser"
    ensures name != "cpp" ==> c.className == Capitalize(name) + "Parser"
  {
    if name == "cpp" then ParserClass("src.parsers.c_cpp_parser", "CCppParser")
    else ParserClass("src.parsers." + name + "_parser", Capitalize(name) + "Parser")
  }

  /** What importing a class yields: it, an `ImportError`, or a module lacking the class. */
  datatype ImportOutcome = Imported | ImportFailed | MissingClass

  type Loader = ParserClass -> ImportOutcome

  /** What asking for a parser yields: none, a parser of some class, or an exception. */
  datatype ParserLookup = NoParser | Loaded(cls: ParserClass) | LoadRaises

  /** The outcome of `_get_parser(name)` when every cached class is the one the loader imports. */
  function ParserForName(name: string, load: Loader): ParserLookup
  {
    match load(ImportTarget(name))
    case Imported => Loaded(ImportTarget(name))
    case ImportFailed => NoParser
    case MissingClass => LoadRaises
  }

  /** The outcome of `get_parser_for_file(path)` under the same condition. */
  function ParserFor(path: string, load: Loader): (r: ParserLookup)
    ensures r.Loaded? ==> ParserNameForFile(path).Some? && r.cls == ImportTarget(ParserNameForFile(path).value)
    ensures ParserNameForFile(path).None? ==> r == NoParser
  {
    match ParserNameForFile(path)
    case None => NoParser
    case Some(name) => ParserForName(name, load)
  }

  /** A parser object as the registry hands it out: its class and the ruleset it was built for. */
  class ParserHandle {
    const cls: ParserClass
    const ruleset: string

    constructor (cls: ParserClass, ruleset: string)
      ensures this.cls == cls && this.ruleset == ruleset
    {
      this.cls := cls;
      this.ruleset := ruleset;
    }
  }

  /** The `_available_parsers` cache: parser name to class, `None` until imported. */
  class Registry {
    var available: map<string, Option<ParserClass>>
    /** The cache's keys in insertion order. */
    var names: seq<string>

    ghost predicate Valid()
      reads this
    {
      (forall i, j :: 0 <= i < j < |names| ==> names[i] != names[j])
      && (forall n :: n in available <==> n in names)
    }

    /** Every cached class is the one `_get_parser` imports for its name, and that import succeeds. */
    ghost predicate Consistent(load: Loader)
      reads this
    {
      forall n :: n in available && available[n].Some? ==>
        available[n].value == ImportTarget(n) && load(ImportTarget(n)) == Imported
    }

    constructor ()
      ensures Valid()
      ensures names == DefaultParserNames
      ensures available == map n | n in DefaultParserNames :: None
    {
      names := DefaultParserNames;
      available := map n | n in DefaultParserNames :: None;
    }

    /** Records `name` at the end of `names` unless the cache already holds it. */
    method Put(name: string, cls: Option<ParserClass>)
      requires Valid()
      modifies this
      ensures Valid()
      ensures available == old(available)[name := cls]
      ensures names == if name in old(available) then old(names) else old(names) + [name]
    {
      if name !in available {
        names := names + [name];
      }
      available := available[name := cls];
    }

    /**
     * `_get_parser`: a parser name whose cache entry is missing or `None` is
     * imported first.  A successful import is cached; an `ImportError` gives
     * no parser (`p == null`) and leaves the cache as it was; a module without
     * the class raises (`raised`).  Every parser handed out is a new object.
     */
    method GetParser(name: string, ruleset: string, load: Loader) returns (p: ParserHandle?, raised: bool)
      requires Valid()
      modifies this
      ensures Valid()
      ensures old(name in available && available[name].Some?) ==>
        !raised && p != null && p.cls == old(available[name].value) && available == old(available) && names == old(names)
      ensures old(name !in available || available[name].None?) ==>
        match load(ImportTarget(name))
        case Imported =>
          !raised && p != null && p.cls == ImportTarget(name)
          && available == old(available)[name := Some(ImportTarget(name))]
          && names == (if name in old(available) then old(names) else old(names) + [name])
        case ImportFailed => !raised && p == null && available == old(available) && names == old(names)
        case MissingClass => raised && p == null && available == old(available) && names == old(names)
      ensures p != null ==> fresh(p) && p.ruleset == ruleset
      ensures old(Consistent(load)) ==> Consistent(load) && Yields(p, raised, ParserForName(name, load))
    {
      raised := false;
      p := null;
      if name !in available || available[name].None? {
        var target := ImportTarget(name);
        match load(target)
        case ImportFailed => return;
        case MissingClass => raised := true; return;
        case Imported => Put(name, Some(target));
      }
      p := new ParserHandle(available[name].value, ruleset);
    }

    /** `get_parser_for_file`: no parser for an unsupported extension, otherwise `_get_parser`. */
    method GetParserForFile(path: string, ruleset: string, load: Loader) returns (p: ParserHandle?, raised: bool)
      requires Valid()
      modifies this
      ensures Valid()
      ensures ParserNameForFile(path).None? ==> p == null && !raised && available == old(available) && names == old(names)
      ensures p != null ==> fresh(p) && p.ruleset == ruleset
      ensures p != null ==>
        ParserNameForFile(path).Some? && ParserNameForFile(path).value in available
        && available[ParserNameForFile(path).value] == Some(p.cls)
      ensures old(Consistent(load)) ==> Consistent(load) && Yields(p, raised, ParserFor(path, load))
    {
      match ParserNameForFile(path)
      case None => p, raised := null, false;
      case Some(name) => p, raised := GetParser(name, ruleset, load);
    }

    /** `register_parser`: overwrites the cache entry for `name`. */
    method RegisterParser(name: string, cls: ParserClass)
      requires Valid()
      modifies this
      ensures Valid()
      ensures available == old(available)[name := Some(cls)]
      ensures names == if name in old(available) then old(names) else old(names) + [name]
    {
      Put(name, Some(cls));
    }

    /** `get_available_parsers`: the cache keys, in insertion order. */
    function AvailableParsers(): (r: seq<string>)
      reads this
      requires Valid()
      ensures forall n :: n in r <==> n in available
    {
      names
    }
  }

  /** A handed-out parser and exception flag agree with a lookup outcome. */
  ghost predicate Yields(p: ParserHandle?, raised: bool, r: ParserLookup)
  {
    match r
    case NoParser => p == null && !raised
    case Loaded(c) => p != null && !raised && p.cls == c
    case LoadRaises => p == null && raised
  }

  /** Once a parser is cached, asking for it again neither imports nor changes the cache. */
  method GetParserTwice(reg: Registry, name: string, load: Loader) returns (first: ParserHandle?, second: ParserHandle?)
    requires reg.Valid()
    requires load(ImportTarget(name)) == Imported
    modifies reg
    ensures first != null && second != null && first != second && first.cls == second.cls
    ensures name in reg.available && reg.available[name] == Some(first.cls)
  {
    var raised;
    first, raised := reg.GetParser(name, "Google", load);
    second, raised := reg.GetParser(name, "Google", load);
  }
}
