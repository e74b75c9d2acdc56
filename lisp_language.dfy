/** The Lisp language descriptor: which file names the editor opens as
    Lisp, and the language's name. The array `endsWith` helper of
    language-base is not part of this model; it is taken to try Kotlin's
    case-sensitive `String.endsWith` on each extension. */
module LispLanguage {

  const FILE_EXTENSIONS: seq<string> := [".lisp", ".lsp", ".cl", ".l"]

  /** The longest extension in FILE_EXTENSIONS. */
  const LONGEST_EXTENSION := 5

  predicate EndsWith(s: string, suffix: string) {
    |suffix| <= |s| && s[|s| - |suffix|..] == suffix
  }

  /** `String.endsWith(Array<String>)`: some suffix of the list ends `s`. */
  function EndsWithAny(s: string, suffixes: seq<string>): (r: bool)
    ensures r <==> exists i :: 0 <= i < |suffixes| && EndsWith(s, suffixes[i])
  {
    if suffixes == [] then false
    else if EndsWith(s, suffixes[0]) then true
    else
      var r := EndsWithAny(s, suffixes[1..]);
      assert forall i :: 1 <= i < |suffixes| ==> suffixes[i] == suffixes[1..][i - 1];
      r
  }

  /** The four extensions, spelled out. */
  predicate IsLispName(fileName: string) {
    EndsWith(fileName, ".lisp") || EndsWith(fileName, ".lsp") || EndsWith(fileName, ".cl") || EndsWith(fileName, ".l")
  }

  /** `LispLanguage.supportFormat`. */
  function SupportFormat(fileName: string): (r: bool)
    ensures r <==> IsLispName(fileName)
  {
    ListedExtensions(fileName);
    EndsWithAny(fileName, FILE_EXTENSIONS)
  }

  lemma ListedExtensions(fileName: string)
    ensures EndsWithAny(fileName, FILE_EXTENSIONS) <==> IsLispName(fileName)
  {
    assert FILE_EXTENSIONS[0] == ".lisp" && FILE_EXTENSIONS[1] == ".lsp";
    assert FILE_EXTENSIONS[2] == ".cl" && FILE_EXTENSIONS[3] == ".l";
  }

  /** `LispLanguage.getName`. */
  function GetName(): (r: string)
    ensures r == "lisp"
  {
    "lisp"
  }

  /** The last `n` characters of `s`, or all of it when it is shorter. */
  function Tail(s: string, n: nat): (r: string)
    ensures |r| == if |s| <= n then |s| else n
    ensures EndsWith(s, r)
  {
    if |s| <= n then s else s[|s| - n..]
  }

  lemma RecognisedNames()
    ensures SupportFormat("core.lisp")
    ensures SupportFormat("init.lsp")
    ensures SupportFormat("macros.cl")
    ensures SupportFormat("a.l")
    ensures SupportFormat(".lisp")
  {
    assert EndsWith("core.lisp", ".lisp") by { assert "core.lisp"[4..] == ".lisp"; }
    assert EndsWith("init.lsp", ".lsp") by { assert "init.lsp"[4..] == ".lsp"; }
    assert EndsWith("macros.cl", ".cl") by { assert "macros.cl"[6..] == ".cl"; }
    assert EndsWith("a.l", ".l") by { assert "a.l"[1..] == ".l"; }
    assert EndsWith(".lisp", ".lisp") by { assert ".lisp"[0..] == ".lisp"; }
  }

  /** Every Lisp name ends in 'p' or 'l'. */
  lemma {:induction false} LispNameLastChar(fileName: string)
    requires SupportFormat(fileName)
    ensures |fileName| >= 2 && fileName[|fileName| - 1] in {'p', 'l'}
  {
    var n := |fileName|;
    if EndsWith(fileName, ".lisp") {
      assert fileName[n - 1] == fileName[n - 5..][4] == 'p';
    } else if EndsWith(fileName, ".lsp") {
      assert fileName[n - 1] == fileName[n - 4..][3] == 'p';
    } else if EndsWith(fileName, ".cl") {
      assert fileName[n - 1] == fileName[n - 3..][2] == 'l';
    } else {
      assert fileName[n - 1] == fileName[n - 2..][1] == 'l';
    }
  }

  lemma UnrecognisedNames()
    ensures !SupportFormat("a.txt")
    ensures !SupportFormat("MAIN.LISP")
    ensures !SupportFormat("notes.lisp.bak")
    ensures !SupportFormat("")
  {
    if SupportFormat("a.txt") {
      LispNameLastChar("a.txt");
    }
    if SupportFormat("MAIN.LISP") {
      LispNameLastChar("MAIN.LISP");
    }
    if SupportFormat("notes.lisp.bak") {
      LispNameLastChar("notes.lisp.bak");
    }
    if SupportFormat("") {
      LispNameLastChar("");
    }
  }

  /** The bare language name is not a Lisp file name. */
  lemma BareNameIsNotLisp()
    ensures !SupportFormat(GetName())
  {
    assert "lisp"[0] == 'l' && "lisp"[3] == 'p';
    assert !EndsWith("lisp", ".lsp") by { assert "lisp"[0..] != ".lsp" by { assert "lisp"[0..][0] == 'l'; } }
  }

  /** A name ending in `suffix` still does after any prefix is added. */
  lemma {:induction false} EndsWithPrefixed(p: string, s: string, suffix: string)
    requires EndsWith(s, suffix)
    ensures EndsWith(p + s, suffix)
  {
    assert (p + s)[|p + s| - |suffix|..] == s[|s| - |suffix|..];
  }

  /** Prepending a directory or a stem never stops a name being Lisp. */
  lemma {:induction false} SupportFormatPrefixed(p: string, fileName: string)
    requires SupportFormat(fileName)
    ensures SupportFormat(p + fileName)
  {
    var i :| 0 <= i < |FILE_EXTENSIONS| && EndsWith(fileName, FILE_EXTENSIONS[i]);
    EndsWithPrefixed(p, fileName, FILE_EXTENSIONS[i]);
  }

  /** The classification depends only on the last five characters. */
  lemma {:induction false} SupportFormatBySuffix(fileName: string)
    ensures SupportFormat(fileName) == SupportFormat(Tail(fileName, LONGEST_EXTENSION))
  {
    var t := Tail(fileName, LONGEST_EXTENSION);
    if |fileName| > LONGEST_EXTENSION {
      var p := fileName[..|fileName| - LONGEST_EXTENSION];
      assert p + t == fileName;
      forall e | e in FILE_EXTENSIONS
        ensures EndsWith(fileName, e) == EndsWith(t, e)
      {
        assert t[|t| - |e|..] == fileName[|fileName| - |e|..];
      }
    }
  }
}
