/**
 * The string operations the search and export code relies on, over ASCII:
 * `trim`, `toLowerCase`, `includes`, and `Array.prototype.join`
 * (with a splitting function as its inverse).
 */
module Text {

  /** The ASCII characters `String.prototype.trim` removes: space, tab, line feed,
      carriage return, vertical tab and form feed. */
  predicate IsSpace(c: char) {
    c == ' ' || c == '\t' || c == '\n' || c == '\r' || c == '\U{000B}' || c == '\U{000C}'
  }

  predicate AllSpace(s: string) {
    forall c | c in s :: IsSpace(c)
  }

  predicate IsUpper(c: char) {
    'A' <= c <= 'Z'
  }

  /** `toLowerCase` on one character, over ASCII. */
  function LowerChar(c: char): (r: char)
    ensures !IsUpper(r)
    ensures IsUpper(c) ==> r as int == c as int + 32
    ensures !IsUpper(c) ==> r == c
  {
    if IsUpper(c) then (c as int + 32) as char else c
  }

  /** `toLowerCase` over ASCII: same length, every letter lowered, nothing upper-case left. */
  function Lower(s: string): (r: string)
    ensures |r| == |s|
    ensures forall i :: 0 <= i < |s| ==> r[i] == LowerChar(s[i])
    ensures forall i :: 0 <= i < |r| ==> !IsUpper(r[i])
  {
    seq(|s|, i requires 0 <= i < |s| => LowerChar(s[i]))
  }

  lemma LowerIdempotent(s: string)
    ensures Lower(Lower(s)) == Lower(s)
  {
    assert forall i :: 0 <= i < |s| ==> Lower(Lower(s))[i] == Lower(s)[i];
  }

  lemma LowerAppend(a: string, b: string)
    ensures Lower(a + b) == Lower(a) + Lower(b)
  {
    assert forall i :: 0 <= i < |a + b| ==> Lower(a + b)[i] == (Lower(a) + Lower(b))[i];
  }

  /** Removes the leading whitespace only: what is dropped is all space, and what is
      left is a suffix that is empty or starts with a non-space. */
  function TrimStart(s: string): (r: string)
    ensures |r| <= |s| && r == s[|s| - |r|..]
    ensures AllSpace(s[..|s| - |r|])
    ensures r == [] || !IsSpace(r[0])
  {
    if |s| > 0 && IsSpace(s[0]) then TrimStart(s[1..]) else s
  }

  /** Removes the trailing whitespace only: what is dropped is all space, and what is
      left is a prefix that is empty or ends with a non-space. */
  function TrimEnd(s: string): (r: string)
    ensures |r| <= |s| && r == s[..|r|]
    ensures AllSpace(s[|r|..])
    ensures r == [] || !IsSpace(r[|r| - 1])
  {
    if |s| > 0 && IsSpace(s[|s| - 1]) then TrimEnd(s[..|s| - 1]) else s
  }

  /** `String.prototype.trim` over ASCII whitespace. */
  function Trim(s: string): (r: string)
    ensures |r| <= |s|
  {
    TrimEnd(TrimStart(s))
  }

  /** `trim` cuts a slice out of `s` with only whitespace on either side of it, and
      the slice neither starts nor ends with whitespace. */
  lemma TrimShape(s: string)
    ensures var r := Trim(s); r == [] || (!IsSpace(r[0]) && !IsSpace(r[|r| - 1]))
    ensures var r := Trim(s);
            exists i :: 0 <= i <= |s| - |r| && r == s[i..i + |r|] && AllSpace(s[..i]) && AllSpace(s[i + |r|..])
  {
    var t := TrimStart(s);
    var r := TrimEnd(t);
    assert r == [] || (!IsSpace(r[0]) && !IsSpace(r[|r| - 1])) by {
      if r != [] { assert r[0] == t[0]; }
    }
    SpacedSlice(s, t, r);
  }

  /** A space-trimmed prefix of a space-trimmed suffix is a slice with space around it. */
  lemma SpacedSlice(s: string, t: string, r: string)
    requires |t| <= |s| && t == s[|s| - |t|..] && AllSpace(s[..|s| - |t|])
    requires |r| <= |t| && r == t[..|r|] && AllSpace(t[|r|..])
    ensures exists i :: 0 <= i <= |s| - |r| && r == s[i..i + |r|] && AllSpace(s[..i]) && AllSpace(s[i + |r|..])
  {
    var i := |s| - |t|;
    assert r == s[i..i + |r|] && s[i + |r|..] == t[|r|..];
  }

  lemma {:induction false} LowerCharSpace(c: char)
    ensures IsSpace(LowerChar(c)) == IsSpace(c)
  {
  }

  lemma LowerSlice(s: string, i: int, j: int)
    requires 0 <= i <= j <= |s|
    ensures Lower(s)[i..j] == Lower(s[i..j])
  {
    assert forall k :: 0 <= k < j - i ==> Lower(s)[i..j][k] == Lower(s[i..j])[k];
  }

  lemma {:induction false} TrimStartLower(s: string)
    ensures TrimStart(Lower(s)) == Lower(TrimStart(s))
    decreases |s|
  {
    if |s| > 0 {
      var ls := Lower(s);
      assert IsSpace(ls[0]) == IsSpace(s[0]) by { LowerCharSpace(s[0]); }
      assert ls[1..] == Lower(s[1..]) by { LowerSlice(s, 1, |s|); assert s[1..|s|] == s[1..]; }
      if IsSpace(s[0]) {
        calc {
          TrimStart(ls);
          TrimStart(Lower(s[1..]));
          { TrimStartLower(s[1..]); }
          Lower(TrimStart(s[1..]));
        }
      }
    }
  }

  lemma {:induction false} TrimEndLower(s: string)
    ensures TrimEnd(Lower(s)) == Lower(TrimEnd(s))
    decreases |s|
  {
    if |s| > 0 {
      var n := |s| - 1;
      var ls := Lower(s);
      assert IsSpace(ls[n]) == IsSpace(s[n]) by { LowerCharSpace(s[n]); }
      assert ls[..n] == Lower(s[..n]) by { LowerSlice(s, 0, n); assert s[0..n] == s[..n]; }
      if IsSpace(s[n]) {
        calc {
          TrimEnd(ls);
          TrimEnd(Lower(s[..n]));
          { TrimEndLower(s[..n]); }
          Lower(TrimEnd(s[..n]));
        }
      }
    }
  }

  /** Lowering and trimming commute: lowering never turns a space into a non-space or back. */
  lemma TrimLowerCommute(s: string)
    ensures Trim(Lower(s)) == Lower(Trim(s))
  {
    TrimStartLower(s);
    TrimEndLower(TrimStart(s));
  }

  lemma AllSpaceSlice(w: string, i: int, j: int)
    requires 0 <= i <= j <= |w| && AllSpace(w)
    ensures AllSpace(w[i..j])
  {
    assert forall k :: 0 <= k < j - i ==> w[i..j][k] == w[i + k];
  }

  lemma {:induction false} TrimStartPadded(w: string, s: string)
    requires AllSpace(w)
    ensures TrimStart(w + s) == TrimStart(s)
    decreases |w|
  {
    if |w| > 0 {
      var ws := w + s;
      assert IsSpace(ws[0]) by { assert ws[0] == w[0]; }
      assert TrimStart(ws) == TrimStart(ws[1..]);
      assert ws[1..] == w[1..] + s;
      AllSpaceSlice(w, 1, |w|);
      TrimStartPadded(w[1..], s);
    } else {
      assert w + s == s;
    }
  }

  lemma {:induction false} TrimEndPadded(s: string, w: string)
    requires AllSpace(w)
    ensures TrimEnd(s + w) == TrimEnd(s)
    decreases |w|
  {
    if |w| > 0 {
      var sw := s + w;
      assert IsSpace(sw[|sw| - 1]) by { assert sw[|sw| - 1] == w[|w| - 1]; }
      assert TrimEnd(sw) == TrimEnd(sw[..|sw| - 1]);
      assert sw[..|sw| - 1] == s + w[..|w| - 1];
      AllSpaceSlice(w, 0, |w| - 1);
      TrimEndPadded(s, w[..|w| - 1]);
    } else {
      assert s + w == s;
    }
  }

  /** Leading whitespace stays ahead of TrimStart when the string is not all space. */
  lemma {:induction false} TrimStartAppendSpace(s: string, w: string)
    requires AllSpace(w)
    ensures TrimStart(s + w) == if AllSpace(s) then [] else TrimStart(s) + w
    decreases |s|
  {
    if |s| == 0 {
      assert s + w == w;
      TrimStartPadded(w, []);
      assert w + [] == w;
    } else {
      assert (s + w)[1..] == s[1..] + w;
      if IsSpace(s[0]) {
        TrimStartAppendSpace(s[1..], w);
        if AllSpace(s[1..]) {
          assert AllSpace(s) by {
            forall i | 0 <= i < |s| ensures IsSpace(s[i]) {
              if i > 0 { assert s[i] == s[1..][i - 1]; }
            }
          }
        }
      }
    }
  }

  /** Whitespace added at either end of a string does not change what `trim` returns. */
  lemma TrimIgnoresPadding(w1: string, s: string, w2: string)
    requires AllSpace(w1) && AllSpace(w2)
    ensures Trim(w1 + s + w2) == Trim(s)
  {
    assert w1 + s + w2 == w1 + (s + w2);
    assert TrimStart(w1 + s + w2) == TrimStart(s + w2) by { TrimStartPadded(w1, s + w2); }
    if AllSpace(s) {
      assert TrimStart(s + w2) == [] by { TrimStartAppendSpace(s, w2); }
      assert TrimStart(s) == [] by { TrimStartAppendSpace(s, []); assert s + [] == s; }
    } else {
      calc {
        TrimEnd(TrimStart(s + w2));
        { TrimStartAppendSpace(s, w2); }
        TrimEnd(TrimStart(s) + w2);
        { TrimEndPadded(TrimStart(s), w2); }
        TrimEnd(TrimStart(s));
      }
    }
  }

  /** The needle occurs in the haystack starting at position `i`. */
  predicate OccursAt(haystack: string, needle: string, i: int) {
    0 <= i && i + |needle| <= |haystack| && haystack[i..i + |needle|] == needle
  }

  /** `haystack.includes(needle)`, written as the search the library performs. */
  function Contains(haystack: string, needle: string): (r: bool)
    ensures needle <= haystack ==> r
    decreases |haystack|
  {
    needle <= haystack || (|haystack| > 0 && Contains(haystack[1..], needle))
  }

  /** Contains holds exactly when the needle occurs at some position. */
  lemma {:induction false} ContainsIffOccurs(haystack: string, needle: string)
    ensures Contains(haystack, needle) <==> exists i :: OccursAt(haystack, needle, i)
    decreases |haystack|
  {
    if needle <= haystack {
      assert OccursAt(haystack, needle, 0);
    } else if |haystack| > 0 {
      ContainsIffOccurs(haystack[1..], needle);
      assert (exists i :: OccursAt(haystack, needle, i)) ==> exists j :: OccursAt(haystack[1..], needle, j) by {
        if exists i :: OccursAt(haystack, needle, i) {
          var i :| OccursAt(haystack, needle, i);
          assert i != 0;
          assert haystack[1..][i - 1..i - 1 + |needle|] == haystack[i..i + |needle|];
          assert OccursAt(haystack[1..], needle, i - 1);
        }
      }
      assert (exists j :: OccursAt(haystack[1..], needle, j)) ==> exists i :: OccursAt(haystack, needle, i) by {
        if exists j :: OccursAt(haystack[1..], needle, j) {
          var j :| OccursAt(haystack[1..], needle, j);
          assert haystack[j + 1..j + 1 + |needle|] == haystack[1..][j..j + |needle|];
          assert OccursAt(haystack, needle, j + 1);
        }
      }
    } else {
      assert |needle| > 0;
      assert forall i :: !OccursAt(haystack, needle, i);
    }
  }

  /** `fields.join(sep)`: the fields in order, separated by `sep`, with nothing quoted. */
  function Join(fields: seq<string>, sep: char): (r: string)
    ensures |fields| > 0 ==> fields[0] <= r
    decreases |fields|
  {
    if |fields| == 0 then ""
    else if |fields| == 1 then fields[0]
    else fields[0] + [sep] + Join(fields[1..], sep)
  }

  /** Cuts a string at every `sep`; the inverse of Join when no field contains `sep`. */
  function Split(s: string, sep: char): (r: seq<string>)
    ensures |r| > 0
    decreases |s|
  {
    if |s| == 0 then [""]
    else
      var rest := Split(s[1..], sep);
      if s[0] == sep then [""] + rest else [[s[0]] + rest[0]] + rest[1..]
  }

  /** Each of `lines` followed by `sep`, concatenated. */
  function Terminated(lines: seq<string>, sep: char): (r: string)
    ensures |r| >= |lines|
    decreases |lines|
  {
    if |lines| == 0 then "" else lines[0] + [sep] + Terminated(lines[1..], sep)
  }

  lemma {:induction false} SplitNoSep(f: string, sep: char)
    requires sep !in f
    ensures Split(f, sep) == [f]
    decreases |f|
  {
    if |f| > 0 {
      SplitNoSep(f[1..], sep);
      assert [f[0]] + f[1..] == f;
    }
  }

  lemma {:induction false} SplitAfterField(f: string, t: string, sep: char)
    requires sep !in f
    ensures Split(f + [sep] + t, sep) == [f] + Split(t, sep)
    decreases |f|
  {
    if |f| == 0 {
      assert (f + [sep] + t)[1..] == t;
    } else {
      assert (f + [sep] + t)[1..] == f[1..] + [sep] + t;
      SplitAfterField(f[1..], t, sep);
      assert [f[0]] + f[1..] == f;
    }
  }

  /** Round trip: splitting the joined fields gives the fields back, provided no field
      contains the separator (Join does no quoting, so that proviso is needed). */
  lemma {:induction false} SplitJoin(fields: seq<string>, sep: char)
    requires |fields| > 0
    requires forall k :: 0 <= k < |fields| ==> sep !in fields[k]
    ensures Split(Join(fields, sep), sep) == fields
    decreases |fields|
  {
    if |fields| == 1 {
      SplitNoSep(fields[0], sep);
    } else {
      SplitJoin(fields[1..], sep);
      SplitAfterField(fields[0], Join(fields[1..], sep), sep);
      assert [fields[0]] + fields[1..] == fields;
    }
  }

  /** Splitting a text whose lines are each terminated by `sep` gives the lines back,
      followed by the empty remainder after the last terminator. */
  lemma {:induction false} SplitTerminated(lines: seq<string>, sep: char)
    requires forall k :: 0 <= k < |lines| ==> sep !in lines[k]
    ensures Split(Terminated(lines, sep), sep) == lines + [""]
    decreases |lines|
  {
    if |lines| > 0 {
      SplitTerminated(lines[1..], sep);
      SplitAfterField(lines[0], Terminated(lines[1..], sep), sep);
      assert [lines[0]] + (lines[1..] + [""]) == lines + [""];
    }
  }

  /** A field holding the separator comes back as two fields: Join does not escape. */
  lemma JoinDoesNotEscape()
    ensures Join(["a,b"], ',') == "a,b"
    ensures Split(Join(["a,b"], ','), ',') == ["a", "b"]
  {
    assert "a,b"[1..] == ",b";
    assert ",b"[1..] == "b";
    assert "b"[1..] == "";
    assert Split("", ',') == [""];
    assert Split("b", ',') == [['b'] + ""] + [""][1..];
    assert ['b'] + "" == "b";
    assert Split(",b", ',') == ["", "b"];
    assert ['a'] + "" == "a";
  }
}
