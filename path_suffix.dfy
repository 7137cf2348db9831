/**
 * The audio-format test of the upload check (main.py): the file's extension is
 * `Path(filename).suffix.lower().lstrip('.')`, and only "wav" and "mp3" are accepted.
 *
 * `PurePosixPath` semantics are assumed: the name is the last component that is neither
 * empty nor "."; the suffix is the text from the last '.' of the name, when that dot is
 * neither the first nor the last character of the name, and is empty otherwise.
 * Lower-casing is modelled on the ASCII letters.
 */
module PathSuffix {

  /** `ALLOWED_AUDIO_FORMATS`. */
  const AllowedFormats: set<string> := {"wav", "mp3"}

  /** `s.rfind(c)`: the index of the last `c` in `s`, or -1 when there is none. */
  function LastIndexOf(s: string, c: char): (i: int)
    ensures -1 <= i < |s|
    ensures i >= 0 ==> s[i] == c
    ensures forall j :: i < j < |s| ==> s[j] != c
  {
    if s == [] then -1
    else if s[|s| - 1] == c then |s| - 1
    else LastIndexOf(s[..|s| - 1], c)
  }

  /** `PurePosixPath(path).name`: the last component that is not empty and not ".". */
  function Name(path: string): (name: string)
    ensures '/' !in name && name != "."
    decreases |path|
  {
    var i := LastIndexOf(path, '/');
    var last := path[i + 1..];
    if last != "" && last != "." then last
    else if i < 0 then ""
    else Name(path[..i])
  }

  /** `path.split('/')`, computed from the front, one character at a time. */
  function Segments(path: string): (segs: seq<string>)
    ensures |segs| >= 1
  {
    if path == [] then [""]
    else
      var rest := Segments(path[1..]);
      if path[0] == '/' then [""] + rest else [[path[0]] + rest[0]] + rest[1..]
  }

  /** The segments that name something: neither empty nor ".". */
  function Meaningful(segs: seq<string>): seq<string>
  {
    if segs == [] then []
    else (if segs[0] != "" && segs[0] != "." then [segs[0]] else []) + Meaningful(segs[1..])
  }

  /** The components of a POSIX path, as `PurePosixPath(path).parts` lists them after the root. */
  function Components(path: string): seq<string>
  {
    Meaningful(Segments(path))
  }

  /** `PurePath.suffix` of a name: from its last dot, unless that dot is first or last. */
  function Suffix(name: string): string
  {
    var i := LastIndexOf(name, '.');
    if 0 < i < |name| - 1 then name[i..] else ""
  }

  function LowerChar(c: char): char
  {
    if 'A' <= c <= 'Z' then (c as int + 32) as char else c
  }

  /** `str.lower()`, on the ASCII letters. */
  function Lower(s: string): (r: string)
    ensures |r| == |s|
    ensures forall i :: 0 <= i < |s| ==> r[i] == LowerChar(s[i])
  {
    if s == [] then [] else [LowerChar(s[0])] + Lower(s[1..])
  }

  /** `str.lstrip('.')`: what is left after the run of dots at the front. */
  function StripLeadingDots(s: string): (r: string)
    ensures r == [] || r[0] != '.'
  {
    if s != [] && s[0] == '.' then StripLeadingDots(s[1..]) else s
  }

  /** Every character of `t` is a dot. */
  predicate AllDots(t: string)
  {
    forall j :: 0 <= j < |t| ==> t[j] == '.'
  }

  /** `lstrip` keeps a suffix of its input and removes only dots in front of it. */
  lemma {:induction false} StripLeadingDotsDropsDots(s: string)
    ensures var r := StripLeadingDots(s);
            |r| <= |s| && r == s[|s| - |r|..] && AllDots(s[..|s| - |r|])
    decreases |s|
  {
    if s != [] && s[0] == '.' {
      var t := s[1..];
      StripLeadingDotsDropsDots(t);
      var r := StripLeadingDots(t);
      assert t[|t| - |r|..] == s[|s| - |r|..];
      assert s[..|s| - |r|] == [s[0]] + t[..|t| - |r|];
    } else {
      assert s == s[0..];
    }
  }

  /** The extension that the upload check compares with the allowed formats. */
  function Extension(filename: string): string
  {
    StripLeadingDots(Lower(Suffix(Name(filename))))
  }

  lemma EmptyNotAllowed()
    ensures "" !in AllowedFormats
  {
    assert |"wav"| == |"mp3"| == 3;
  }

  /** Only a non-empty file name can have an accepted extension. */
  lemma AcceptedNameIsNotEmpty(filename: string)
    requires Extension(filename) in AllowedFormats
    ensures filename != ""
  {
    if filename == "" {
      assert LastIndexOf(filename, '/') == -1;
      assert Name(filename) == [];
      assert LastIndexOf(Name(filename), '.') == -1;
      assert Extension(filename) == [];
      EmptyNotAllowed();
      assert false;
    }
  }

  /** An accepted extension comes from a name ending in ".wav" or ".mp3" (any case). */
  lemma AcceptedNameEnding(name: string)
    requires StripLeadingDots(Lower(Suffix(name))) in AllowedFormats
    ensures |name| >= 5 && Lower(name[|name| - 4..]) in {".wav", ".mp3"}
  {
    var i := LastIndexOf(name, '.');
    var n := |name|;
    if !(0 < i < n - 1) {
      assert StripLeadingDots(Lower(Suffix(name))) == [];
      EmptyNotAllowed();
      assert false;
    }
    var tail := name[i + 1..];
    assert name[i..] == ['.'] + tail;
    var ext := Lower(tail);
    assert Lower(name[i..]) == ['.'] + ext;
    assert ext[0] != '.';
    assert StripLeadingDots(['.'] + ext) == ext;
    assert ext == "wav" || ext == "mp3";
    assert i == n - 4;
    if ext == "wav" {
      assert ['.'] + ext == ".wav";
    } else {
      assert ext == "mp3";
      assert ['.'] + ext == ".mp3";
    }
  }

  /** A name of five or more characters ending in ".wav" or ".mp3" (any case) is accepted. */
  lemma NameEndingAccepted(name: string)
    requires |name| >= 5 && Lower(name[|name| - 4..]) in {".wav", ".mp3"}
    ensures StripLeadingDots(Lower(Suffix(name))) in AllowedFormats
  {
    var n := |name|;
    var low := Lower(name[n - 4..]);
    assert LowerChar(name[n - 4]) == low[0] == '.';
    forall j | n - 4 < j < n
      ensures name[j] != '.'
    {
      assert LowerChar(name[j]) == low[j - (n - 4)] != '.';
    }
    assert LastIndexOf(name, '.') == n - 4;
    var tail := name[n - 3..];
    assert name[n - 4..] == ['.'] + tail;
    assert low == ['.'] + Lower(tail);
    assert StripLeadingDots(Lower(Suffix(name))) == Lower(tail) == low[1..];
  }

  /**
   * The format check accepts exactly the names of at least five characters that end in
   * ".wav" or ".mp3", in any mix of cases; a bare ".wav" has no suffix and is refused.
   */
  lemma ExtensionAllowedIff(filename: string)
    ensures var name := Name(filename);
            Extension(filename) in AllowedFormats
            <==> |name| >= 5 && Lower(name[|name| - 4..]) in {".wav", ".mp3"}
  {
    var name := Name(filename);
    if Extension(filename) in AllowedFormats {
      AcceptedNameEnding(name);
    }
    if |name| >= 5 && Lower(name[|name| - 4..]) in {".wav", ".mp3"} {
      NameEndingAccepted(name);
    }
  }

  /** A file name without separators, other than "" and ".", is its own path name. */
  lemma PlainName(filename: string)
    requires '/' !in filename && filename != "" && filename != "."
    ensures Name(filename) == filename
  {
    assert LastIndexOf(filename, '/') == -1;
    assert filename[0..] == filename;
  }

  /** A path without separators is a single segment. */
  lemma {:induction false} SegmentsWithoutSeparator(q: string)
    requires '/' !in q
    ensures Segments(q) == [q]
    decreases |q|
  {
    if q != [] {
      assert '/' !in q[1..];
      SegmentsWithoutSeparator(q[1..]);
      assert [q[0]] + q[1..] == q;
    }
  }

  /** Splitting at a separator splits the segments. */
  lemma {:induction false} SegmentsAtSeparator(p: string, q: string)
    ensures Segments(p + ['/'] + q) == Segments(p) + Segments(q)
    decreases |p|
  {
    var whole := p + ['/'] + q;
    if p == [] {
      assert whole[1..] == q;
    } else {
      assert whole[0] == p[0];
      assert whole[1..] == p[1..] + ['/'] + q;
      SegmentsAtSeparator(p[1..], q);
    }
  }

  lemma {:induction false} MeaningfulAppend(a: seq<string>, b: seq<string>)
    ensures Meaningful(a + b) == Meaningful(a) + Meaningful(b)
    decreases |a|
  {
    if a == [] {
      assert a + b == b;
    } else {
      assert (a + b)[0] == a[0];
      assert (a + b)[1..] == a[1..] + b;
      MeaningfulAppend(a[1..], b);
    }
  }

  lemma MeaningfulSingle(x: string)
    ensures Meaningful([x]) == if x != "" && x != "." then [x] else []
  {
    assert [x][1..] == [];
  }

  /** The components of a path are those before its last separator and then the last segment's. */
  lemma ComponentsAtLastSeparator(path: string, i: int)
    requires i == LastIndexOf(path, '/')
    ensures Components(path) == (if i < 0 then [] else Components(path[..i])) + Meaningful([path[i + 1..]])
  {
    var last := path[i + 1..];
    assert '/' !in last;
    SegmentsWithoutSeparator(last);
    if i < 0 {
      assert path == last;
    } else {
      assert path == path[..i] + ['/'] + last;
      SegmentsAtSeparator(path[..i], last);
      MeaningfulAppend(Segments(path[..i]), [last]);
    }
  }

  /**
   * The name of a path is its last component that is neither empty nor ".", and is empty
   * when there is none (for "", "/", "." or "a/./" this gives "", "", "" and "a").
   */
  lemma {:induction false} NameIsLastComponent(path: string)
    ensures var parts := Components(path);
            Name(path) == if parts == [] then "" else parts[|parts| - 1]
    decreases |path|
  {
    var i := LastIndexOf(path, '/');
    var last := path[i + 1..];
    ComponentsAtLastSeparator(path, i);
    MeaningfulSingle(last);
    if i >= 0 && !(last != "" && last != ".") {
      NameIsLastComponent(path[..i]);
    }
  }

  /**
   * The extension is the lower-cased text after the last dot of the name, without the dot,
   * when that dot is neither the first nor the last character of the name; otherwise empty.
   */
  lemma ExtensionAfterLastDot(filename: string)
    ensures var name := Name(filename);
            var i := LastIndexOf(name, '.');
            Extension(filename) == if 0 < i < |name| - 1 then Lower(name[i + 1..]) else ""
  {
    var name := Name(filename);
    var i := LastIndexOf(name, '.');
    if 0 < i < |name| - 1 {
      var tail := name[i + 1..];
      assert name[i..] == ['.'] + tail;
      assert Lower(name[i..]) == ['.'] + Lower(tail);
      assert Lower(tail)[0] != '.';
      assert StripLeadingDots(['.'] + Lower(tail)) == Lower(tail);
    } else {
      assert Suffix(name) == [] && Lower([]) == [];
    }
  }

  lemma EmptyWavLastDot(name: string)
    requires name == "empty.wav"
    ensures Name(name) == name && LastIndexOf(name, '.') == 5 && name[6..] == "wav"
  {
    PlainName(name);
    assert name[5] == '.' && name[6] != '.' && name[7] != '.' && name[8] != '.';
  }

  lemma TestTxtLastDot(name: string)
    requires name == "test.txt"
    ensures Name(name) == name && LastIndexOf(name, '.') == 4 && name[5..] == "txt"
  {
    PlainName(name);
    assert name[4] == '.' && name[5] != '.' && name[6] != '.' && name[7] != '.';
  }

  /** "empty.wav" has the extension "wav". */
  lemma EmptyWavExtension(name: string)
    requires name == "empty.wav"
    ensures Extension(name) == "wav"
  {
    EmptyWavLastDot(name);
    ExtensionAfterLastDot(name);
    assert Lower("wav") == "wav";
  }

  /** "test.txt" has the extension "txt", which is not an audio format. */
  lemma TestTxtExtension(name: string)
    requires name == "test.txt"
    ensures Extension(name) == "txt" && "txt" !in AllowedFormats
  {
    TestTxtLastDot(name);
    ExtensionAfterLastDot(name);
    assert Lower("txt") == "txt";
    assert "txt"[0] != "wav"[0] && "txt"[0] != "mp3"[0];
  }
}
