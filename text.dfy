/**
  The JavaScript string operations the bot relies on, over Dafny strings.

  A Dafny `char` is one Unicode scalar value; JavaScript strings count UTF-16
  code units, so `Utf16Length` and `Truncate16` say how long a string is and
  how `slice(0, n)` cuts it in JavaScript's terms.
*/
module Text {
  import opened Wrappers

  /** The code points `String.prototype.trim` strips: ECMAScript WhiteSpace and LineTerminator. */
  predicate IsSpace(c: char) {
    c == '\t' || c == '\n' || c == '\U{000B}' || c == '\U{000C}' || c == '\r' || c == ' '
    || c == '\U{00A0}' || c == '\U{1680}' || ('\U{2000}' <= c <= '\U{200A}')
    || c == '\U{2028}' || c == '\U{2029}' || c == '\U{202F}' || c == '\U{205F}'
    || c == '\U{3000}' || c == '\U{FEFF}'
  }

  /** Neither the first nor the last character of `s` is white space. */
  predicate Trimmed(s: string) {
    s == [] || (!IsSpace(s[0]) && !IsSpace(s[|s| - 1]))
  }

  /** `s.trimStart()`: drops the white space at the front and nothing else. */
  function TrimStart(s: string): (r: string)
    ensures |r| <= |s| && r == s[|s| - |r|..]
    ensures r == [] || !IsSpace(r[0])
    ensures forall i :: 0 <= i < |s| - |r| ==> IsSpace(s[i])
  {
    if s != [] && IsSpace(s[0]) then TrimStart(s[1..]) else s
  }

  /** `s.trimEnd()`: drops the white space at the back and nothing else. */
  function TrimEnd(s: string): (r: string)
    ensures |r| <= |s| && r == s[..|r|]
    ensures r == [] || !IsSpace(r[|r| - 1])
    ensures forall i :: |r| <= i < |s| ==> IsSpace(s[i])
  {
    if s != [] && IsSpace(s[|s| - 1]) then TrimEnd(s[..|s| - 1]) else s
  }

  /** `s.trim()`: the piece of `s` left after dropping the white space at both ends. */
  function Trim(s: string): (r: string)
    ensures Trimmed(r)
    ensures |r| <= |s|
  {
    var front := TrimStart(s);
    var r := TrimEnd(front);
    assert r != [] ==> r[0] == front[0];
    r
  }

  /**
    What `trim()` keeps is one contiguous piece of `s`; `TrimStart` and
    `TrimEnd` say that only white space lies around it.
  */
  lemma TrimIsSlice(s: string)
    ensures exists i, j :: 0 <= i <= j <= |s| && Trim(s) == s[i..j]
  {
    var front := TrimStart(s);
    var r := TrimEnd(front);
    PrefixOfSuffix(s, front, r);
    var i := |s| - |front|;
    assert r == s[i..i + |r|];
  }

  /** A prefix `r` of a suffix `front` of `s` is a slice of `s`. */
  lemma PrefixOfSuffix(s: string, front: string, r: string)
    requires |front| <= |s| && front == s[|s| - |front|..]
    requires |r| <= |front| && r == front[..|r|]
    ensures var i := |s| - |front|; r == s[i..i + |r|]
  {
  }

  /** Trimming drops only white space: every other character keeps its count. */
  lemma TrimKeepsText(s: string)
    ensures forall x :: !IsSpace(x) ==> multiset(Trim(s))[x] == multiset(s)[x]
  {
    TrimStartKeepsText(s);
    TrimEndKeepsText(TrimStart(s));
  }

  /** `trimStart()` drops only white space. */
  lemma {:induction false} TrimStartKeepsText(s: string)
    ensures forall x :: !IsSpace(x) ==> multiset(TrimStart(s))[x] == multiset(s)[x]
  {
    if s != [] && IsSpace(s[0]) {
      TrimStartKeepsText(s[1..]);
      assert s == [s[0]] + s[1..];
    }
  }

  /** `trimEnd()` drops only white space. */
  lemma {:induction false} TrimEndKeepsText(s: string)
    ensures forall x :: !IsSpace(x) ==> multiset(TrimEnd(s))[x] == multiset(s)[x]
  {
    if s != [] && IsSpace(s[|s| - 1]) {
      TrimEndKeepsText(s[..|s| - 1]);
      assert s == s[..|s| - 1] + [s[|s| - 1]];
    }
  }

  /** Trimming leaves a string without surrounding white space unchanged. */
  lemma TrimTrimmed(s: string)
    requires Trimmed(s)
    ensures Trim(s) == s
  {
  }

  /** What is left of a string after trimming is a piece of it: trimming adds no character. */
  lemma TrimKeeps(s: string, c: char)
    ensures c in Trim(s) ==> c in s
  {
    if c in Trim(s) {
      var front := TrimStart(s);
      var i :| 0 <= i < |Trim(s)| && Trim(s)[i] == c;
      assert front[i] == c;
      assert s[|s| - |front| + i] == c;
    }
  }

  /** Trimming a trimmed string with one space added on either side gives it back. */
  lemma TrimPadded(s: string)
    requires Trimmed(s)
    ensures Trim(s + " ") == s
    ensures Trim(" " + s) == s
  {
    var a := s + " ";
    if s != [] {
      assert a[0] == s[0];
      assert TrimStart(a) == a;
      assert a[|s| - 1] == s[|s| - 1];
      assert TrimEnd(a) == s;
    } else {
      assert TrimStart(a) == "";
    }
    var b := " " + s;
    if s != [] {
      assert b[1] == s[0];
      assert TrimStart(b) == s;
    } else {
      assert TrimStart(b) == "";
    }
    TrimTrimmed(s);
  }

  /** `s.trim()` is empty exactly when `s` holds nothing but white space. */
  lemma TrimEmptyIffBlank(s: string)
    ensures Trim(s) == [] <==> forall i :: 0 <= i < |s| ==> IsSpace(s[i])
  {
  }

  /** The position of the first `c` in `s`. */
  function IndexOf(s: string, c: char): (k: nat)
    requires c in s
    ensures k < |s| && s[k] == c && c !in s[..k]
  {
    if s[0] == c then 0 else 1 + IndexOf(s[1..], c)
  }

  /** `parts.join(sep)`. */
  function Join(parts: seq<string>, sep: string): (r: string)
  {
    if |parts| == 0 then ""
    else if |parts| == 1 then parts[0]
    else parts[0] + sep + Join(parts[1..], sep)
  }

  /** `s.split(sep)` for a one-character separator: the pieces between the separators. */
  function Split(s: string, sep: char): (parts: seq<string>)
    ensures |parts| >= 1
    ensures forall i :: 0 <= i < |parts| ==> sep !in parts[i]
    ensures Join(parts, [sep]) == s
    decreases |s|
  {
    if sep !in s then [s]
    else
      var k := IndexOf(s, sep);
      var rest := Split(s[k + 1..], sep);
      assert s == s[..k] + [sep] + s[k + 1..];
      [s[..k]] + rest
  }

  /** Splitting what was joined gives back the pieces, provided none of them holds the separator. */
  lemma {:induction false} SplitJoin(parts: seq<string>, sep: char)
    requires |parts| >= 1
    requires forall i :: 0 <= i < |parts| ==> sep !in parts[i]
    ensures Split(Join(parts, [sep]), sep) == parts
  {
    if |parts| == 1 {
    } else {
      var s := Join(parts, [sep]);
      var tail := Join(parts[1..], [sep]);
      assert s == parts[0] + [sep] + tail;
      assert sep in s by { assert s[|parts[0]|] == sep; }
      var k := IndexOf(s, sep);
      assert k == |parts[0]| by {
        assert sep in s[..|parts[0]| + 1];
      }
      assert s[..k] == parts[0];
      assert s[k + 1..] == tail;
      SplitJoin(parts[1..], sep);
    }
  }

  /** Joining two non-empty lists of pieces is joining each and putting the separator between. */
  lemma {:induction false} JoinAppend(a: seq<string>, b: seq<string>, sep: string)
    requires |a| >= 1 && |b| >= 1
    ensures Join(a + b, sep) == Join(a, sep) + sep + Join(b, sep)
    decreases |a|
  {
    if |a| == 1 {
      assert (a + b)[1..] == b;
    } else {
      assert (a + b)[1..] == a[1..] + b;
      JoinAppend(a[1..], b, sep);
    }
  }

  /**
    Splitting two texts joined by the separator gives the pieces of the first
    followed by the pieces of the second.
  */
  lemma SplitAppend(x: string, y: string, sep: char)
    ensures Split(x + [sep] + y, sep) == Split(x, sep) + Split(y, sep)
  {
    var px := Split(x, sep);
    var py := Split(y, sep);
    JoinAppend(px, py, [sep]);
    SplitJoin(px + py, sep);
  }

  /** `s.replace(/c/g, "")`: every `c` removed, everything else kept in order. */
  function Remove(s: string, c: char): (r: string)
    ensures c !in r
    ensures |r| <= |s|
    ensures c !in s ==> r == s
    ensures multiset(r) == multiset(s)[c := 0]
  {
    if s == [] then ""
    else
      assert s == [s[0]] + s[1..];
      if s[0] == c then Remove(s[1..], c)
      else [s[0]] + Remove(s[1..], c)
  }

  /** Removing works piece by piece, so the characters kept stay in their order. */
  lemma {:induction false} RemoveAppend(a: string, b: string, c: char)
    ensures Remove(a + b, c) == Remove(a, c) + Remove(b, c)
  {
    if a != [] {
      assert (a + b)[0] == a[0] && (a + b)[1..] == a[1..] + b;
      RemoveAppend(a[1..], b, c);
    } else {
      assert a + b == b;
    }
  }

  /** The number of UTF-16 code units JavaScript uses for `c`. */
  function CodeUnits(c: char): nat {
    if c as int > 0xFFFF then 2 else 1
  }

  /** `s.length` in JavaScript: the number of UTF-16 code units. */
  function Utf16Length(s: string): (n: nat)
    ensures |s| <= n <= 2 * |s|
  {
    if s == [] then 0 else CodeUnits(s[0]) + Utf16Length(s[1..])
  }

  /** JavaScript lengths add up over concatenation. */
  lemma {:induction false} Utf16LengthAppend(a: string, b: string)
    ensures Utf16Length(a + b) == Utf16Length(a) + Utf16Length(b)
  {
    if a == [] {
      assert a + b == b;
    } else {
      assert (a + b)[1..] == a[1..] + b;
      Utf16LengthAppend(a[1..], b);
    }
  }

  /**
    `s.slice(0, n)` on a string whose code units are all kept whole: the
    longest prefix of `s` that fits in `n` code units. Where JavaScript would
    keep the first half of a surrogate pair straddling the limit, a `char`
    cannot hold it, so that character is dropped here.
  */
  function Truncate16(s: string, n: nat): (r: string)
    ensures |r| <= |s| && r == s[..|r|]
    ensures Utf16Length(r) <= n
    ensures Utf16Length(s) <= n ==> r == s
    ensures |r| < |s| ==> Utf16Length(r) + CodeUnits(s[|r|]) > n
  {
    if s == [] || CodeUnits(s[0]) > n then ""
    else
      var rest := Truncate16(s[1..], n - CodeUnits(s[0]));
      assert ([s[0]] + rest)[1..] == rest;
      [s[0]] + rest
  }

  /** `pat` occurs in `s` starting at position `j`. */
  predicate OccursAt(s: string, pat: string, j: nat) {
    j + |pat| <= |s| && s[j..j + |pat|] == pat
  }

  /** The first position at which `pat` occurs in `s`, as `s.indexOf(pat)` finds it. */
  function Find(s: string, pat: string): (r: Option<nat>)
    ensures r.Some? ==> OccursAt(s, pat, r.value)
    ensures r.Some? ==> forall j: nat :: j < r.value ==> !OccursAt(s, pat, j)
    ensures r.None? ==> forall j: nat :: !OccursAt(s, pat, j)
    decreases |s|
  {
    if |s| < |pat| then None
    else if s[..|pat|] == pat then Some(0)
    else
      var tail := Find(s[1..], pat);
      assert forall j: nat :: 1 <= j ==> OccursAt(s[1..], pat, j - 1) == OccursAt(s, pat, j) by {
        forall j: nat | 1 <= j ensures OccursAt(s[1..], pat, j - 1) == OccursAt(s, pat, j) {
          if j + |pat| <= |s| {
            assert s[1..][j - 1..j - 1 + |pat|] == s[j..j + |pat|];
          }
        }
      }
      match tail
      case None => None
      case Some(i) => Some(i + 1)
  }

  /** `s.replace(pat, rep)` with a string pattern: only the first occurrence is replaced. */
  function ReplaceFirst(s: string, pat: string, rep: string): (r: string)
  {
    match Find(s, pat)
    case None => s
    case Some(i) => s[..i] + rep + s[i + |pat|..]
  }

  /** Replacing the first occurrence rewrites the pattern found after a prefix that cannot hold it. */
  lemma ReplaceFirstAfter(prefix: string, pat: string, suffix: string, rep: string, c: char)
    requires |pat| >= 1 && pat[0] == c && c !in prefix
    ensures ReplaceFirst(prefix + pat + suffix, pat, rep) == prefix + rep + suffix
  {
    var s := prefix + pat + suffix;
    assert s[|prefix|..|prefix| + |pat|] == pat;
    var f := Find(s, pat);
    assert OccursAt(s, pat, |prefix|);
    assert f.Some?;
    assert s[f.value] == c;
    assert f.value == |prefix|;
    assert s[..|prefix|] == prefix;
    assert s[|prefix| + |pat|..] == suffix;
  }
}
