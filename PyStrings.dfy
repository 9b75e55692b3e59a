/** The two Python string operations the inspector uses to derive a cabinet
    identifier from a file path: `str.replace` with a non-empty pattern, and
    `os.path.basename` as the Windows flavour of Python defines it (both `/`
    and `\` separate path components). */
module PyStrings {

  /** `pat` occurs as a contiguous piece of `s` (Python's `pat in s`). */
  predicate Occurs(pat: string, s: string)
  {
    pat <= s || (s != [] && Occurs(pat, s[1..]))
  }

  /** `s.replace(pat, rep)`: scans left to right and replaces every
      non-overlapping occurrence of `pat`, the leftmost match first. */
  function ReplaceAll(s: string, pat: string, rep: string): (r: string)
    requires pat != []
    ensures !Occurs(pat, s) ==> r == s
    ensures |rep| <= |pat| ==> |r| <= |s|
    decreases |s|
  {
    if s == [] then []
    else if pat <= s then rep + ReplaceAll(s[|pat|..], pat, rep)
    else [s[0]] + ReplaceAll(s[1..], pat, rep)
  }

  /** Replacing one character by another is a position-wise substitution. */
  lemma {:induction false} ReplaceCharPointwise(s: string, c: char, d: char)
    ensures |ReplaceAll(s, [c], [d])| == |s|
    ensures forall i :: 0 <= i < |s| ==>
              ReplaceAll(s, [c], [d])[i] == if s[i] == c then d else s[i]
  {
    if s != [] {
      ReplaceCharPointwise(s[1..], c, d);
      var head := if s[0] == c then [d] else [s[0]];
      assert [c] <= s <==> s[0] == c;
      assert ReplaceAll(s, [c], [d]) == head + ReplaceAll(s[1..], [c], [d]);
    }
  }

  /** After replacing `c` by a different character, no `c` is left. */
  lemma ReplaceCharRemovesAll(s: string, c: char, d: char)
    requires c != d
    ensures c !in ReplaceAll(s, [c], [d])
  {
    ReplaceCharPointwise(s, c, d);
    var r := ReplaceAll(s, [c], [d]);
    forall i | 0 <= i < |r| ensures r[i] != c {
    }
  }

  /** Removing ".pdf" from a name that ends in ".pdf" and has no other
      occurrence of it strips exactly that extension: no match can straddle
      the end of the stem, because ".pdf" has no proper prefix that is also
      its suffix. */
  lemma {:induction false} RemovesPdfExtension(stem: string)
    requires !Occurs(".pdf", stem)
    ensures ReplaceAll(stem + ".pdf", ".pdf", "") == stem
  {
    var s := stem + ".pdf";
    if stem == [] {
      assert s == ".pdf";
    } else {
      assert !(".pdf" <= s) by {
        if |stem| >= 4 {
          assert s[..4] == stem[..4];
          assert !(".pdf" <= stem);
        } else if |stem| == 1 {
          assert s[1] == '.';
        } else if |stem| == 2 {
          assert s[2] == '.';
        } else {
          assert s[3] == '.';
        }
      }
      assert s[1..] == stem[1..] + ".pdf";
      RemovesPdfExtension(stem[1..]);
    }
  }

  /** Replacement is a single pass: removing ".pdf" can join the pieces
      around it into a new ".pdf". */
  lemma RemovalIsSinglePass()
    ensures ReplaceAll("a.p.pdfdf", ".pdf", "") == "a.pdf"
  {
    var s := "a.p.pdfdf";
    assert !(".pdf" <= s);
    assert s[1..][2] == '.';
    assert !(".pdf" <= s[2..]);
    assert ".pdf" <= s[3..];
    assert s[7..] == "df";
    assert ReplaceAll("df", ".pdf", "") == "df";
  }

  predicate IsPathSeparator(c: char)
  {
    c == '/' || c == '\\'
  }

  /** `os.path.basename`: the longest suffix of `path` free of separators. */
  function BaseName(path: string): (name: string)
    ensures |name| <= |path| && path[|path| - |name|..] == name
    ensures forall i :: 0 <= i < |name| ==> !IsPathSeparator(name[i])
    ensures |name| < |path| ==> IsPathSeparator(path[|path| - |name| - 1])
  {
    if path == [] then []
    else if IsPathSeparator(path[|path| - 1]) then []
    else BaseName(path[..|path| - 1]) + [path[|path| - 1]]
  }

  /** The base name of "dir/file" is "file" whenever "file" has no separator. */
  lemma {:induction false} BaseNameOfJoin(dir: string, sep: char, file: string)
    requires IsPathSeparator(sep)
    requires forall i :: 0 <= i < |file| ==> !IsPathSeparator(file[i])
    ensures BaseName(dir + [sep] + file) == file
  {
    var path := dir + [sep] + file;
    if file != [] {
      var init := file[..|file| - 1];
      assert path[..|path| - 1] == dir + [sep] + init;
      BaseNameOfJoin(dir, sep, init);
      assert file == init + [file[|file| - 1]];
    }
  }
}
