/** Configuration file format detection (config/ConfigFormat.kt): by the
    lower-cased extension of a file, or by a case-sensitive suffix of a
    file name. A file is given by its path string. */
module ConfigFormat {
  import opened Strings

  datatype Format = YAML | TOML | JSON

  /** The position of the last `c` in `s`. */
  function LastIndexOf(s: string, c: char): (r: Maybe<nat>)
    ensures r.None? <==> c !in s
    ensures r.Some? ==> r.value < |s| && s[r.value] == c
    ensures r.Some? ==> forall j :: r.value < j < |s| ==> s[j] != c
  {
    if s == [] then None
    else if s[|s| - 1] == c then Some(|s| - 1)
    else LastIndexOf(s[..|s| - 1], c)
  }

  /** `substringAfterLast(c, missing)`. */
  function AfterLast(s: string, c: char, missing: string): (r: string)
    ensures c !in s ==> r == missing
    ensures c in s ==> |r| < |s| && s[|s| - |r| - 1] == c && s[|s| - |r|..] == r && c !in r
  {
    match LastIndexOf(s, c)
    case Some(k) => s[k + 1..]
    case None => missing
  }

  /** `File.name`: the part after the last `/`. */
  function FileName(path: string): string
  {
    AfterLast(path, '/', path)
  }

  /** `File.extension`: the part of the name after its last `.`, or `""`. */
  function Extension(path: string): string
  {
    AfterLast(FileName(path), '.', "")
  }

  function FromFile(path: string): Maybe<Format>
  {
    var ext := Lower(Extension(path));
    if ext == "yml" || ext == "yaml" then Some(YAML)
    else if ext == "toml" then Some(TOML)
    else if ext == "json" then Some(JSON)
    else None
  }

  function FromFileName(fileName: string): Maybe<Format>
  {
    if EndsWith(fileName, ".yml") || EndsWith(fileName, ".yaml") then Some(YAML)
    else if EndsWith(fileName, ".toml") then Some(TOML)
    else if EndsWith(fileName, ".json") then Some(JSON)
    else None
  }

  // ---------------------------------------------------------------------
  // Properties

  /** When `s` ends with `c` followed by a `c`-free tail, that tail is what
      follows the last `c`. */
  lemma AfterLastOfSuffix(s: string, c: char, t: string, missing: string)
    requires EndsWith(s, [c] + t) && c !in t
    ensures AfterLast(s, c, missing) == t
  {
    var p := |s| - |t| - 1;
    assert s[p] == ([c] + t)[0];
    assert c in s;
    forall j | p < j < |s| ensures s[j] != c {
      assert s[j] == s[|s| - |[c] + t|..][j - p] == t[j - p - 1];
    }
    var k := LastIndexOf(s, c).value;
    assert k == p;
  }

  /** A suffix that holds no `/` lies inside the file name. */
  lemma SuffixInFileName(path: string, x: string)
    requires EndsWith(path, x) && '/' !in x
    ensures EndsWith(FileName(path), x)
  {
    var name := FileName(path);
    if '/' in path {
      var k := LastIndexOf(path, '/').value;
      assert name == path[k + 1..];
      assert k < |path| - |x|;
      assert name[|name| - |x|..] == path[|path| - |x|..];
    }
  }

  /** The file name is a suffix of the path. */
  lemma FileNameIsSuffix(path: string)
    ensures EndsWith(path, FileName(path))
  {
  }

  lemma SuffixGivesExtension(path: string, w: string)
    requires '.' !in w && '/' !in w
    requires EndsWith(path, "." + w)
    ensures Extension(path) == w
  {
    var x := "." + w;
    assert x == ['.'] + w;
    assert '/' !in x by {
      assert forall j :: 1 <= j < |x| ==> x[j] == w[j - 1];
    }
    SuffixInFileName(path, x);
    AfterLastOfSuffix(FileName(path), '.', w, "");
  }

  lemma ExtensionGivesSuffix(path: string, w: string)
    requires w != []
    requires Extension(path) == w
    ensures EndsWith(path, "." + w)
  {
    var name := FileName(path);
    assert '.' in name;
    var n := |name| - |w|;
    assert name[n - 1] == '.' && name[n..] == w;
    assert name[n - 1..] == "." + w;
    FileNameIsSuffix(path);
    EndsWithTrans(path, name, "." + w);
  }

  /** A file name ending with `.`+`w`, for a word `w` with no `.` or `/`,
      is exactly a file whose extension is `w`. */
  lemma ExtensionIffSuffix(path: string, w: string)
    requires w != [] && '.' !in w && '/' !in w
    ensures Extension(path) == w <==> EndsWith(path, "." + w)
  {
    if EndsWith(path, "." + w) {
      SuffixGivesExtension(path, w);
    }
    if Extension(path) == w {
      ExtensionGivesSuffix(path, w);
    }
  }

  /** `FromFile` on a file whose extension is already lower case. */
  lemma FromFileOnLowerCase(path: string)
    requires Lower(Extension(path)) == Extension(path)
    ensures var ext := Extension(path);
      FromFile(path) == if ext == "yml" || ext == "yaml" then Some(YAML)
        else if ext == "toml" then Some(TOML) else if ext == "json" then Some(JSON) else None
  {
  }

  /** For a file whose extension is already lower case, detection by
      extension and by suffix agree. */
  lemma DetectionAgreesOnLowerCase(path: string)
    requires Lower(Extension(path)) == Extension(path)
    ensures FromFile(path) == FromFileName(path)
  {
    FromFileOnLowerCase(path);
    YmlSuffix(path);
    YamlSuffix(path);
    TomlSuffix(path);
    JsonSuffix(path);
  }

  lemma YmlSuffix(path: string)
    ensures Extension(path) == "yml" <==> EndsWith(path, ".yml")
  {
    ExtensionIffSuffix(path, "yml");
  }

  lemma YamlSuffix(path: string)
    ensures Extension(path) == "yaml" <==> EndsWith(path, ".yaml")
  {
    ExtensionIffSuffix(path, "yaml");
  }

  lemma TomlSuffix(path: string)
    ensures Extension(path) == "toml" <==> EndsWith(path, ".toml")
  {
    ExtensionIffSuffix(path, "toml");
  }

  lemma JsonSuffix(path: string)
    ensures Extension(path) == "json" <==> EndsWith(path, ".json")
  {
    ExtensionIffSuffix(path, "json");
  }

  /** They disagree on upper-case extensions: `X.YML` is YAML by extension
      and unrecognised by suffix. */
  lemma DetectionDisagreesOnUpperCase()
    ensures FromFile("X.YML") == Some(YAML)
    ensures FromFileName("X.YML") == None
  {
    assert '/' !in "X.YML";
    assert Extension("X.YML") == "YML" by {
      AfterLastOfSuffix("X.YML", '.', "YML", "");
    }
    assert Lower("YML") == "yml";
    assert "X.YML"[1..] != ".yml";
    assert "X.YML"[1..] != ".toml"[1..];
    assert "X.YML"[1..] != ".json"[1..];
  }

  /** Each recognised extension, in any letter case, selects its format;
      a file without an extension selects none. */
  lemma FromFileByExtension(path: string)
    ensures Lower(Extension(path)) in ["yml", "yaml"] <==> FromFile(path) == Some(YAML)
    ensures Lower(Extension(path)) == "toml" <==> FromFile(path) == Some(TOML)
    ensures Lower(Extension(path)) == "json" <==> FromFile(path) == Some(JSON)
    ensures Extension(path) == "" ==> FromFile(path) == None
  {
  }
}
