/**
 * The service-worker precache patterns of the build configuration: which syntax
 * highlighting language chunks are precached and which are ignored. Reading a directory
 * (`readdirSync`) is a parameter.
 */
module ViteConfig {

  const PrismLanguagesDir: string := "node_modules/react-syntax-highlighter/dist/esm/languages/prism"
  const IncludedLanguages: seq<string> := ["css.js", "javascript.js", "typescript.js"]
  const AssetsPrefix: string := "**/assets/"
  const StaticGlobPattern: string := "**/*.{js,css,html,ico,png,svg}"

  // ---------------------------------------------------------------------------------------
  // `String.prototype.split` on one separator character

  /** `s.split(sep)`: the pieces between the separators, in order, at least one. */
  function Split(s: string, sep: char): (parts: seq<string>)
    ensures |parts| >= 1
    ensures forall p :: 0 <= p < |parts| ==> sep !in parts[p]
    decreases |s|
  {
    if sep !in s then [s]
    else
      var k := FirstIndex(s, sep);
      [s[..k]] + Split(s[k + 1..], sep)
  }

  /** The position of the first `sep` in `s`. */
  function FirstIndex(s: string, sep: char): (k: nat)
    requires sep in s
    ensures k < |s| && s[k] == sep && sep !in s[..k]
  {
    if s[0] == sep then 0
    else
      assert sep in s[1..] by { var i :| 0 <= i < |s| && s[i] == sep; assert s[1..][i - 1] == sep; }
      var k := 1 + FirstIndex(s[1..], sep);
      assert s[..k] == [s[0]] + s[1..][..k - 1];
      k
  }

  /** `parts.join(sep)`. */
  function JoinWith(parts: seq<string>, sep: char): string
    requires |parts| >= 1
  {
    if |parts| == 1 then parts[0] else parts[0] + [sep] + JoinWith(parts[1..], sep)
  }

  /** Splitting and joining back gives the original string. */
  lemma {:induction false} SplitJoin(s: string, sep: char)
    ensures JoinWith(Split(s, sep), sep) == s
    decreases |s|
  {
    if sep in s {
      var k := FirstIndex(s, sep);
      SplitJoin(s[k + 1..], sep);
      assert Split(s, sep)[1..] == Split(s[k + 1..], sep);
      assert s == s[..k] + [sep] + s[k + 1..];
    }
  }

  /** When `s` starts with a piece free of `sep`, followed by `sep`, that piece comes first. */
  lemma SplitFirst(head: string, sep: char, rest: string)
    requires sep !in head
    ensures Split(head + [sep] + rest, sep) == [head] + Split(rest, sep)
  {
    var s := head + [sep] + rest;
    assert s[|head|] == sep;
    var k := FirstIndex(s, sep);
    assert k == |head|;
    assert s[..k] == head;
    assert s[k + 1..] == rest;
  }

  // ---------------------------------------------------------------------------------------
  // Glob patterns

  /** `node:path.join` for a prefix that already ends in `/` and a plain file name. */
  function PathJoin(prefix: string, name: string): string
  {
    prefix + name
  }

  /**
   * `bash.js` becomes `<prefix>bash-*.js`: only the first two dot-separated parts are
   * used, and a name without a dot gets the extension `undefined`, as in a template string.
   */
  function FilenameToGlob(prefix: string, filename: string): (glob: string)
    ensures |prefix| <= |glob| && glob[..|prefix|] == prefix
    ensures '.' !in filename ==> glob == prefix + (filename + "-*.undefined")
  {
    var parts := Split(filename, '.');
    var basename := parts[0];
    var extname := if |parts| > 1 then parts[1] else "undefined";
    assert '.' !in filename ==> basename + "-*." + extname == filename + "-*.undefined";
    PathJoin(prefix, basename + "-*." + extname)
  }

  /** A piece free of dots, followed by nothing or by a dot, is the first piece. */
  lemma SplitHead(ext: string, more: string)
    requires '.' !in ext
    requires more == [] || more[0] == '.'
    ensures Split(ext + more, '.')[0] == ext
  {
    if more == [] {
      assert ext + more == ext;
    } else {
      assert ext + more == ext + ['.'] + more[1..];
      SplitFirst(ext, '.', more[1..]);
    }
  }

  /** The first two pieces of `base.ext` followed by nothing or by a dot. */
  lemma SplitTwo(base: string, ext: string, more: string)
    requires '.' !in base && '.' !in ext
    requires more == [] || more[0] == '.'
    ensures |Split(base + "." + ext + more, '.')| > 1
    ensures Split(base + "." + ext + more, '.')[0] == base
    ensures Split(base + "." + ext + more, '.')[1] == ext
  {
    assert base + "." + ext + more == base + ['.'] + (ext + more);
    SplitFirst(base, '.', ext + more);
    SplitHead(ext, more);
  }

  /** The glob of `base.ext`, and of `base.ext.more...`, names `base` and `ext` only. */
  lemma FilenameToGlobOfParts(prefix: string, base: string, ext: string, more: string)
    requires '.' !in base && '.' !in ext
    requires more == [] || more[0] == '.'
    ensures FilenameToGlob(prefix, base + "." + ext + more) == prefix + (base + "-*." + ext)
  {
    SplitTwo(base, ext, more);
  }

  /** `buildLanguageGlobPatterns`: one pattern per included language, in order. */
  function BuildLanguageGlobPatterns(prefix: string): (patterns: seq<string>)
    ensures |patterns| == |IncludedLanguages|
    ensures forall i :: 0 <= i < |patterns| ==> patterns[i] == FilenameToGlob(prefix, IncludedLanguages[i])
  {
    seq(|IncludedLanguages|, i requires 0 <= i < |IncludedLanguages| => FilenameToGlob(prefix, IncludedLanguages[i]))
  }

  /** The files of `listing` that are not included languages, in listing order. */
  function Excluded(listing: seq<string>): (files: seq<string>)
    ensures |files| <= |listing|
    ensures forall f :: f in files <==> f in listing && f !in IncludedLanguages
  {
    if listing == [] then []
    else (if listing[0] in IncludedLanguages then [] else [listing[0]]) + Excluded(listing[1..])
  }

  /** How many entries of `listing` are included languages. */
  function CountIncluded(listing: seq<string>): nat
  {
    if listing == [] then 0
    else (if listing[0] in IncludedLanguages then 1 else 0) + CountIncluded(listing[1..])
  }

  /** Filtering distributes over concatenation, so it keeps the listing's order. */
  lemma {:induction false} ExcludedConcat(a: seq<string>, b: seq<string>)
    ensures Excluded(a + b) == Excluded(a) + Excluded(b)
    decreases |a|
  {
    if a == [] {
      assert a + b == b;
    } else {
      assert (a + b)[1..] == a[1..] + b;
      ExcludedConcat(a[1..], b);
    }
  }

  /** Every entry is either ignored or an included language, never both. */
  lemma {:induction false} ExcludedCount(listing: seq<string>)
    ensures |Excluded(listing)| + CountIncluded(listing) == |listing|
    decreases |listing|
  {
    if listing != [] {
      ExcludedCount(listing[1..]);
    }
  }

  /**
   * `buildLanguageIgnoreGlobPatterns`: one pattern per file of the language folder, as
   * `readDir` lists it, that is not an included language, in listing order.
   */
  function BuildLanguageIgnoreGlobPatterns(prefix: string, readDir: string -> seq<string>)
    : (patterns: seq<string>)
    ensures var listing := readDir(PrismLanguagesDir);
      |patterns| == |Excluded(listing)| &&
      forall i :: 0 <= i < |patterns| ==> patterns[i] == FilenameToGlob(prefix, Excluded(listing)[i])
  {
    var files := Excluded(readDir(PrismLanguagesDir));
    seq(|files|, i requires 0 <= i < |files| => FilenameToGlob(prefix, files[i]))
  }

  /** The precache part of the workbox options. */
  datatype Workbox = Workbox(globIgnores: seq<string>, globPatterns: seq<string>)

  /** The workbox options, with the language folder read by `readDir`. */
  function WorkboxConfig(readDir: string -> seq<string>): (config: Workbox)
    ensures config.globIgnores == BuildLanguageIgnoreGlobPatterns(AssetsPrefix, readDir)
    ensures |config.globPatterns| == 1 + |IncludedLanguages|
    ensures config.globPatterns[0] == StaticGlobPattern
    ensures config.globPatterns[1..] == BuildLanguageGlobPatterns(AssetsPrefix)
  {
    Workbox(BuildLanguageIgnoreGlobPatterns(AssetsPrefix, readDir),
            [StaticGlobPattern] + BuildLanguageGlobPatterns(AssetsPrefix))
  }

  /** The glob of an included language file `base.js`. */
  lemma ScriptGlob(base: string)
    requires '.' !in base
    ensures FilenameToGlob(AssetsPrefix, base + ".js") == AssetsPrefix + base + "-*.js"
  {
    FilenameToGlobOfParts(AssetsPrefix, base, "js", "");
    assert base + "." + "js" + "" == base + ".js";
    assert AssetsPrefix + (base + "-*." + "js") == AssetsPrefix + base + "-*.js";
  }
}
