/** How the generator turns a path template and a method name into the
    names of the interfaces and of the controller class it emits. */
module Naming {
  import opened Concat
  import opened ChangeCase

  /** `s.replace(/[{}]/g, '')`: every brace removed, everything else kept in order. */
  function StripBraces(s: string): (r: string)
    ensures '{' !in r && '}' !in r
    ensures |r| <= |s|
    ensures ('{' !in s && '}' !in s) ==> r == s
  {
    if s == [] then []
    else (if s[0] == '{' || s[0] == '}' then [] else [s[0]]) + StripBraces(s[1..])
  }

  lemma {:induction false} StripBracesAppend(a: string, b: string)
    ensures StripBraces(a + b) == StripBraces(a) + StripBraces(b)
  {
    if a == [] {
      assert a + b == b;
    } else {
      assert (a + b)[1..] == a[1..] + b;
      StripBracesAppend(a[1..], b);
    }
  }

  /** `parts.join(sep)`. */
  function Join(parts: seq<string>, sep: char): string
  {
    if |parts| == 0 then []
    else if |parts| == 1 then parts[0]
    else parts[0] + [sep] + Join(parts[1..], sep)
  }

  /** `s.split(sep)`: the pieces between separators, empty ones included;
      the empty string splits into one empty piece. */
  function Split(s: string, sep: char): (r: seq<string>)
    ensures |r| >= 1
    ensures forall i :: 0 <= i < |r| ==> sep !in r[i]
  {
    if s == [] then [[]]
    else
      var rest := Split(s[1..], sep);
      if s[0] == sep then [[]] + rest else [[s[0]] + rest[0]] + rest[1..]
  }

  /** Joining the pieces of a split gives back the string. */
  lemma {:induction false} JoinSplit(s: string, sep: char)
    ensures Join(Split(s, sep), sep) == s
  {
    if s != [] {
      var rest := Split(s[1..], sep);
      JoinSplit(s[1..], sep);
      if s[0] == sep {
        assert Split(s, sep)[1..] == rest;
      } else {
        var r := Split(s, sep);
        if |rest| == 1 {
          assert r == [[s[0]] + rest[0]];
        } else {
          assert r[1..] == rest[1..];
          assert Join(rest, sep) == rest[0] + [sep] + Join(rest[1..], sep);
        }
      }
    }
  }

  /** Splitting pieces joined with a separator none of them contains gives
      back the pieces. */
  lemma {:induction false} SplitJoin(parts: seq<string>, sep: char)
    requires |parts| >= 1
    requires forall i :: 0 <= i < |parts| ==> sep !in parts[i]
    ensures Split(Join(parts, sep), sep) == parts
  {
    if |parts| == 1 {
      SplitWithoutSeparator(parts[0], sep);
    } else {
      SplitJoin(parts[1..], sep);
      SplitAppend(parts[0], Join(parts[1..], sep), sep);
      SplitWithoutSeparator(parts[0], sep);
      assert [parts[0]] + parts[1..] == parts;
    }
  }

  lemma {:induction false} SplitWithoutSeparator(s: string, sep: char)
    requires sep !in s
    ensures Split(s, sep) == [s]
  {
    if s != [] {
      SplitWithoutSeparator(s[1..], sep);
      assert [s[0]] + s[1..] == s;
    }
  }

  /** A separator between two strings separates their pieces. */
  lemma {:induction false} SplitAppend(a: string, b: string, sep: char)
    ensures Split(a + [sep] + b, sep) == Split(a, sep) + Split(b, sep)
  {
    if a == [] {
      assert a + [sep] + b == [sep] + b;
      assert ([sep] + b)[1..] == b;
    } else {
      assert (a + [sep] + b)[1..] == a[1..] + [sep] + b;
      SplitAppend(a[1..], b, sep);
    }
  }

  /** The PascalCase forms of the segments, concatenated. */
  function PascalSegments(segments: seq<string>): (r: string)
    ensures PascalText(r)
  {
    if segments == [] then []
    else
      var rest := PascalSegments(segments[1..]);
      PascalTextAppend(PascalCase(segments[0]), rest);
      PascalCase(segments[0]) + rest
  }

  lemma {:induction false} PascalSegmentsAppend(a: seq<string>, b: seq<string>)
    ensures PascalSegments(a + b) == PascalSegments(a) + PascalSegments(b)
  {
    if a == [] {
      assert a + b == b;
    } else {
      assert (a + b)[0] == a[0] && (a + b)[1..] == a[1..] + b;
      PascalSegmentsAppend(a[1..], b);
      Assoc(PascalCase(a[0]), PascalSegments(a[1..]), PascalSegments(b));
    }
  }

  /** `toPathName`: braces removed, split on '/', each segment PascalCased,
      joined. The result is made of letters and digits, with `_` only in
      front of a digit. */
  function PathName(path: string): (r: string)
    ensures PascalText(r)
  {
    PascalSegments(Split(StripBraces(path), '/'))
  }

  /** The name of a path joined to a further segment with '/' is the two
      names concatenated; in particular a leading '/' contributes nothing. */
  lemma {:induction false} PathNameAppend(p: string, q: string)
    ensures PathName(p + "/" + q) == PathName(p) + PathName(q)
  {
    StripBracesAppend(p + "/", q);
    StripBracesAppend(p, "/");
    assert StripBraces("/") == "/";
    SplitAppend(StripBraces(p), StripBraces(q), '/');
    PascalSegmentsAppend(Split(StripBraces(p), '/'), Split(StripBraces(q), '/'));
  }

  /** A path without '/' or braces names itself in PascalCase. */
  lemma {:induction false} PathNameOfSegment(s: string)
    requires '/' !in s && '{' !in s && '}' !in s
    ensures PathName(s) == PascalCase(s)
  {
    SplitWithoutSeparator(s, '/');
    assert PascalSegments([s]) == PascalCase(s) + PascalSegments([]);
  }

  /** `toTypeName`. */
  function TypeName(path: string, verb: string, suffix: string): (r: string)
    ensures |r| >= |suffix| && r[|r| - |suffix|..] == suffix
  {
    PascalCase(verb) + PathName(path) + suffix
  }

  /** `pathToControllerName`. */
  function ControllerName(path: string): (r: string)
    ensures |r| >= 10 && r[|r| - 10..] == "Controller"
  {
    PathName(path) + "Controller"
  }

  /** For one path and method, different suffixes give different type
      names, so the Request and Context interfaces never share a name. */
  lemma {:induction false} TypeNameSuffixes(path: string, verb: string, s1: string, s2: string)
    requires |s1| == |s2|
    ensures TypeName(path, verb, s1) == TypeName(path, verb, s2) <==> s1 == s2
  {
    var prefix := PascalCase(verb) + PathName(path);
    if TypeName(path, verb, s1) == TypeName(path, verb, s2) {
      assert s1 == (prefix + s1)[|prefix|..];
      assert s2 == (prefix + s2)[|prefix|..];
    }
  }

  /** Two paths give the same controller name exactly when they give the
      same path name; nothing detects such a collision. */
  lemma {:induction false} ControllerNameCollision(p: string, q: string)
    ensures ControllerName(p) == ControllerName(q) <==> PathName(p) == PathName(q)
  {
    if ControllerName(p) == ControllerName(q) {
      var cp := ControllerName(p);
      var cq := ControllerName(q);
      assert PathName(p) == cp[..|cp| - 10];
      assert PathName(q) == cq[..|cq| - 10];
    }
  }

  // Paths with parameter segments such as `/pets/{petId}`.

  /** A path parameter segment `{w}` names itself as `w` would. */
  lemma {:induction false} PathNameOfBracedSegment(w: string)
    requires '/' !in w && '{' !in w && '}' !in w
    ensures PathName("{" + w + "}") == PascalCase(w)
  {
    BracesStripped(w);
    PathNameOfSegment(w);
  }

  lemma {:induction false} BracesStripped(w: string)
    requires '{' !in w && '}' !in w
    ensures StripBraces("{" + w + "}") == w
  {
    StripBracesAppend("{" + w, "}");
    StripBracesAppend("{", w);
    BraceStripped('{');
    BraceStripped('}');
  }

  lemma {:induction false} BraceStripped(c: char)
    requires c == '{' || c == '}'
    ensures StripBraces([c]) == []
  {
    assert [c][1..] == [];
  }

  /** A leading '/' contributes nothing to a path's name. */
  lemma {:induction false} LeadingSlash(tail: string)
    ensures PathName("/" + tail) == PathName(tail)
  {
    var empty: string := [];
    PathNameAppend(empty, tail);
    assert empty + "/" + tail == "/" + tail;
    assert PathName(empty) == [] by { assert StripBraces(empty) == empty; assert Split(empty, '/') == [empty]; }
  }

  /** `/a/{b}` names itself as `a` followed by `b`. */
  lemma {:induction false} TwoSegmentPathName(a: string, b: string)
    requires '/' !in a && '{' !in a && '}' !in a
    requires '/' !in b && '{' !in b && '}' !in b
    ensures PathName("/" + (a + "/" + ("{" + b + "}"))) == PascalCase(a) + PascalCase(b)
  {
    LeadingSlash(a + "/" + ("{" + b + "}"));
    PathNameAppend(a, "{" + b + "}");
    PathNameOfSegment(a);
    PathNameOfBracedSegment(b);
  }

  /** A path ending in the parameter segment `{w}` and the different path
      ending in the literal segment `w` get the same controller name. */
  lemma {:induction false} BracedSegmentCollision(p: string, w: string)
    requires '/' !in w && '{' !in w && '}' !in w
    ensures p + "/" + ("{" + w + "}") != p + "/" + w
    ensures ControllerName(p + "/" + ("{" + w + "}")) == ControllerName(p + "/" + w)
  {
    PathNameAppend(p, "{" + w + "}");
    PathNameAppend(p, w);
    PathNameOfBracedSegment(w);
    PathNameOfSegment(w);
    assert |p + "/" + ("{" + w + "}")| != |p + "/" + w|;
  }
}
