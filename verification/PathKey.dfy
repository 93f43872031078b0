/**
 * The string keys of diagnostics and repeat positions: JSON Pointers (RFC 6901) of step paths.
 * Rendering and parsing undo each other, so maps keyed by string behave as maps keyed by path.
 */
module PathKey {
  import opened Definition

  // ---------- replacing ----------

  /** Every occurrence of c becomes with. */
  function ReplaceChar(s: string, c: char, with: string): string {
    if s == "" then "" else (if s[0] == c then with else [s[0]]) + ReplaceChar(s[1..], c, with)
  }

  /** Every occurrence of the two characters a, b becomes c, from left to right. */
  function ReplacePair(s: string, a: char, b: char, c: char): string {
    if s == "" then ""
    else if |s| >= 2 && s[0] == a && s[1] == b then [c] + ReplacePair(s[2..], a, b, c)
    else [s[0]] + ReplacePair(s[1..], a, b, c)
  }

  /** Section 3 of RFC 6901: '~' first, then '/'. */
  function Escape(part: string): string {
    ReplaceChar(ReplaceChar(part, '~', "~0"), '/', "~1")
  }

  /** Section 4 of RFC 6901: "~1" first, then "~0". */
  function Unescape(part: string): string {
    ReplacePair(ReplacePair(part, '~', '1', '/'), '~', '0', '~')
  }

  // ---------- splitting ----------

  function Join(parts: seq<string>): string {
    if parts == [] then ""
    else if |parts| == 1 then parts[0]
    else parts[0] + "/" + Join(parts[1..])
  }

  /** The parts between separators; a string without one is a single part. */
  function Split(s: string): (parts: seq<string>)
    ensures |parts| >= 1
  {
    if s == "" then [""]
    else
      var rest := Split(s[1..]);
      if s[0] == '/' then [""] + rest else [[s[0]] + rest[0]] + rest[1..]
  }

  function EscapeAll(path: Path): (parts: seq<string>)
    ensures |parts| == |path| && forall i :: 0 <= i < |path| ==> parts[i] == Escape(path[i])
  {
    seq(|path|, i requires 0 <= i < |path| => Escape(path[i]))
  }

  function UnescapeAll(parts: seq<string>): (path: Path)
    ensures |path| == |parts| && forall i :: 0 <= i < |parts| ==> path[i] == Unescape(parts[i])
  {
    seq(|parts|, i requires 0 <= i < |parts| => Unescape(parts[i]))
  }

  function Key(path: Path): string {
    if path == [] then "" else "/" + Join(EscapeAll(path))
  }

  function FromKey(key: string): Path {
    if key == "" then []
    else UnescapeAll(Split(if key[0] == '/' then key[1..] else key))
  }

  // ---------- the loops ----------

  /** Renders a path, escaping its parts one after another. */
  method StepPathKey(path: Path) returns (key: string)
    ensures key == Key(path)
  {
    if |path| == 0 {
      return "";
    }
    var escaped := new string[|path|];
    for i := 0 to |path|
      invariant forall j :: 0 <= j < i ==> escaped[j] == Escape(path[j])
    {
      var part := ReplaceChar(path[i], '~', "~0");
      escaped[i] := ReplaceChar(part, '/', "~1");
    }
    assert escaped[..] == EscapeAll(path);
    key := "/" + Join(escaped[..]);
  }

  /** Parses a key, rewriting its parts in place. */
  method StepPathFromKey(key: string) returns (path: Path)
    ensures path == FromKey(key)
  {
    if key == "" {
      return [];
    }
    var split := Split(if key[0] == '/' then key[1..] else key);
    var parts := new string[|split|](i requires 0 <= i < |split| => split[i]);
    for i := 0 to parts.Length
      invariant forall j :: 0 <= j < i ==> parts[j] == Unescape(split[j])
      invariant forall j :: i <= j < parts.Length ==> parts[j] == split[j]
    {
      parts[i] := ReplacePair(ReplacePair(parts[i], '~', '1', '/'), '~', '0', '~');
    }
    assert parts[..] == UnescapeAll(split);
    path := parts[..];
  }

  // ---------- round trip ----------

  lemma {:induction false} ReplaceAppend(a: string, b: string, c: char, with: string)
    ensures ReplaceChar(a + b, c, with) == ReplaceChar(a, c, with) + ReplaceChar(b, c, with)
  {
    if a == "" {
      assert a + b == b;
    } else {
      ReplaceAppend(a[1..], b, c, with);
      assert (a + b)[1..] == a[1..] + b;
    }
  }

  /** Escaping works character by character. */
  lemma EscapeFirst(part: string)
    requires part != ""
    ensures Escape(part)
         == (if part[0] == '~' then "~0" else if part[0] == '/' then "~1" else [part[0]]) + Escape(part[1..])
  {
    var c := part[0];
    var first := if c == '~' then "~0" else [c];
    ReplaceAppend(first, ReplaceChar(part[1..], '~', "~0"), '/', "~1");
    assert ReplaceChar("", '/', "~1") == "";
    assert "~0"[1..] == "0" && "0"[1..] == "";
    assert ReplaceChar("0", '/', "~1") == "0" && ReplaceChar("~0", '/', "~1") == "~0";
    assert [c][1..] == "";
  }

  /** A key is built part by part: each is its escaped form after a slash (section 3 of RFC 6901). */
  lemma KeyGrows(part: string, path: Path)
    ensures Key([part] + path) == "/" + Escape(part) + Key(path)
  {
    var parts := EscapeAll([part] + path);
    assert parts[1..] == EscapeAll(path);
    if path == [] {
      assert "/" + Escape(part) + "" == "/" + Escape(part);
    } else {
      assert Join(parts) == Escape(part) + "/" + Join(EscapeAll(path));
      assert "/" + (Escape(part) + "/" + Join(EscapeAll(path))) == "/" + Escape(part) + ("/" + Join(EscapeAll(path)));
    }
  }

  /** What the first pass of unescaping leaves of an escaped part: only "~0" is still escaped. */
  lemma {:induction false} FirstPass(part: string)
    ensures ReplacePair(Escape(part), '~', '1', '/') == ReplaceChar(part, '~', "~0")
  {
    if part != "" {
      var rest := Escape(part[1..]);
      FirstPass(part[1..]);
      EscapeFirst(part);
      if part[0] == '~' {
        assert ("~0" + rest)[1..] == "0" + rest && ("0" + rest)[1..] == rest;
        assert ReplacePair("0" + rest, '~', '1', '/') == "0" + ReplacePair(rest, '~', '1', '/');
      } else if part[0] == '/' {
        assert ("~1" + rest)[2..] == rest;
      } else {
        assert ([part[0]] + rest)[1..] == rest;
      }
    }
  }

  lemma {:induction false} SecondPass(part: string)
    ensures ReplacePair(ReplaceChar(part, '~', "~0"), '~', '0', '~') == part
  {
    if part != "" {
      var c, rest := part[0], part[1..];
      SecondPass(rest);
      var once := ReplaceChar(part, '~', "~0");
      if c == '~' {
        assert once == "~0" + ReplaceChar(rest, '~', "~0");
        assert once[2..] == ReplaceChar(rest, '~', "~0");
      } else {
        assert once == [c] + ReplaceChar(rest, '~', "~0");
        assert once[1..] == ReplaceChar(rest, '~', "~0");
      }
      assert part == [c] + rest;
    }
  }

  /** Unescaping undoes escaping, whatever the name contains. */
  lemma EscapeRoundTrip(part: string)
    ensures Unescape(Escape(part)) == part
  {
    FirstPass(part);
    SecondPass(part);
  }

  /** The order of the two passes matters: unescaping "~0" first would turn the name "~1" into "/". */
  lemma PassesInOrder()
    ensures Escape("~1") == "~01"
    ensures Unescape("~01") == "~1"
    ensures ReplacePair(ReplacePair("~01", '~', '0', '~'), '~', '1', '/') == "/"
  {
    assert ReplaceChar("1", '~', "~0") == "1" && "~1"[1..] == "1" && "1"[1..] == "";
    assert ReplaceChar("~1", '~', "~0") == "~01";
    assert "~01"[1..] == "01" && "01"[1..] == "1";
    assert ReplaceChar("1", '/', "~1") == "1";
    assert ReplaceChar("01", '/', "~1") == "01";
    assert ReplaceChar("~01", '/', "~1") == "~01";
    assert ReplacePair("1", '~', '1', '/') == "1";
    assert ReplacePair("01", '~', '1', '/') == "01";
    assert ReplacePair("~01", '~', '1', '/') == "~01";
    assert "~01"[2..] == "1";
    assert ReplacePair("1", '~', '0', '~') == "1";
    assert ReplacePair("~01", '~', '0', '~') == "~1";
    assert "~1"[2..] == "";
    assert ReplacePair("~1", '~', '1', '/') == "/";
  }

  predicate Plain(s: string) {
    forall i :: 0 <= i < |s| ==> s[i] != '/'
  }

  lemma {:induction false} NoSlash(s: string)
    ensures Plain(ReplaceChar(s, '/', "~1"))
  {
    if s != "" {
      NoSlash(s[1..]);
    }
  }

  lemma {:induction false} SplitPart(part: string, rest: string)
    requires Plain(part)
    ensures Split(part) == [part]
    ensures Split(part + "/" + rest) == [part] + Split(rest)
  {
    if part == "" {
      assert (part + "/" + rest)[1..] == rest;
    } else {
      SplitPart(part[1..], rest);
      assert (part + "/" + rest)[1..] == part[1..] + "/" + rest;
      assert part == [part[0]] + part[1..];
    }
  }

  lemma {:induction false} SplitJoin(parts: seq<string>)
    requires parts != [] && forall i :: 0 <= i < |parts| ==> Plain(parts[i])
    ensures Split(Join(parts)) == parts
  {
    if |parts| == 1 {
      SplitPart(parts[0], "");
      assert parts == [parts[0]];
    } else {
      SplitJoin(parts[1..]);
      SplitPart(parts[0], Join(parts[1..]));
      assert parts == [parts[0]] + parts[1..];
    }
  }

  /** Every path is recovered from its key - with empty names, and names containing '/' or '~'. */
  lemma KeyRoundTrip(path: Path)
    ensures FromKey(Key(path)) == path
  {
    if path != [] {
      var parts := EscapeAll(path);
      forall i | 0 <= i < |path| ensures Plain(parts[i]) && Unescape(parts[i]) == path[i] {
        NoSlash(ReplaceChar(path[i], '~', "~0"));
        EscapeRoundTrip(path[i]);
      }
      SplitJoin(parts);
      assert Key(path)[1..] == Join(parts);
      assert UnescapeAll(parts) == path;
    }
  }

  /** Different paths never share a key. */
  lemma KeysUnambiguous(a: Path, b: Path)
    ensures Key(a) == Key(b) ==> a == b
  {
    KeyRoundTrip(a);
    KeyRoundTrip(b);
  }
}
