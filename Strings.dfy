/** The operations of Python 2's byte `str` that the bot relies on, over `seq<char>`.
    Only ASCII letters are cased, as in the C locale. */
module Strings {
  import opened Wrappers

  /** The characters `str.split()` with no argument treats as whitespace. */
  predicate IsSpace(c: char) {
    c == ' ' || c == '\t' || c == '\n' || c == '\r' || c == '\U{0B}' || c == '\U{0C}'
  }

  predicate IsDigit(c: char) {
    '0' <= c <= '9'
  }

  predicate IsUpper(c: char) {
    'A' <= c <= 'Z'
  }

  predicate IsLower(c: char) {
    'a' <= c <= 'z'
  }

  predicate NoSpace(s: string) {
    forall i :: 0 <= i < |s| ==> !IsSpace(s[i])
  }

  // ---------------------------------------------------------------------------
  // Substring search: `t in s`, `s.find(t)`

  /** `t` occurs in `s` at index `i`. */
  predicate MatchAt(s: string, t: string, i: nat) {
    i <= |s| && t <= s[i..]
  }

  /** `s.find(t)`: the index of the first occurrence of `t` in `s`, or -1. */
  function IndexOf(s: string, t: string): (r: int)
    ensures -1 <= r <= |s|
    ensures 0 <= r ==> MatchAt(s, t, r) && r + |t| <= |s|
    ensures 0 <= r ==> forall j: nat :: j < r ==> !MatchAt(s, t, j)
    ensures r < 0 ==> forall j: nat :: !MatchAt(s, t, j)
    decreases |s|
  {
    if t <= s then 0
    else if |s| == 0 then -1
    else
      var k := IndexOf(s[1..], t);
      MatchAtTail(s, t);
      if k < 0 then -1 else k + 1
  }

  /** A match past the first character is a match in the tail. */
  lemma MatchAtTail(s: string, t: string)
    requires |s| > 0
    ensures forall j: nat :: 1 <= j ==> (MatchAt(s, t, j) <==> MatchAt(s[1..], t, j - 1))
  {
    forall j: nat | 1 <= j <= |s| ensures s[j..] == s[1..][j - 1..] {
    }
  }

  /** Python's `t in s` on strings. */
  function Contains(s: string, t: string): (b: bool)
    ensures b <==> exists i: nat :: MatchAt(s, t, i)
  {
    var k := IndexOf(s, t);
    if k >= 0 then
      var i: nat := k;
      assert MatchAt(s, t, i);
      true
    else false
  }

  /** `s.split(sep)[0]`: the text before the first occurrence of `sep`, all of `s` when there is none. */
  function Before(s: string, sep: string): (r: string)
    requires |sep| > 0
    ensures r <= s
    ensures Contains(s, sep) ==> r + sep <= s
    ensures !Contains(s, sep) ==> r == s
    ensures !Contains(r, sep)
  {
    var i := IndexOf(s, sep);
    if i < 0 then s
    else
      var r := s[..i];
      assert forall j: nat :: MatchAt(r, sep, j) ==> MatchAt(s, sep, j) && j < i;
      r
  }

  /** The text after the first occurrence of `sep`, `None` when `sep` does not occur. */
  function After(s: string, sep: string): (r: Option<string>)
    requires |sep| > 0
    ensures r.Some? <==> Contains(s, sep)
    ensures r.Some? ==> Before(s, sep) + sep + r.value == s
  {
    var i := IndexOf(s, sep);
    if i < 0 then None else Some(s[i + |sep|..])
  }

  /** `s.split(sep)[1]`: the text between the first and the second occurrence of
      `sep` (or the end); `None` where Python raises an IndexError. */
  function SecondPiece(s: string, sep: string): (r: Option<string>)
    requires |sep| > 0
    ensures r.Some? <==> Contains(s, sep)
    ensures r.Some? ==> Before(s, sep) + sep + r.value <= s && !Contains(r.value, sep)
    ensures r.Some? ==> var rest := After(s, sep).value;
              (Contains(rest, sep) ==> r.value + sep <= rest) && (!Contains(rest, sep) ==> r.value == rest)
  {
    match After(s, sep)
    case None => None
    case Some(rest) => Some(Before(rest, sep))
  }

  /** No proper prefix of `t` is also a suffix of it (true of `hero/` and `profile/`). */
  predicate Unbordered(t: string) {
    forall k :: 0 < k < |t| ==> t[..k] != t[|t| - k..]
  }

  /** If `a` holds no unbordered `sep`, the first `sep` of `a + sep + b` is the one after `a`. */
  lemma FirstOccurrenceAfter(a: string, sep: string, b: string)
    requires |sep| > 0 && Unbordered(sep) && !Contains(a, sep)
    ensures IndexOf(a + sep + b, sep) == |a|
  {
    var s := a + sep + b;
    assert s[|a|..] == sep + b;
    assert MatchAt(s, sep, |a|);
    forall j: nat | j < |a| ensures !MatchAt(s, sep, j) {
      assert !MatchAt(a, sep, j);
      if j + |sep| <= |a| {
        assert s[j..j + |sep|] == a[j..j + |sep|];
        assert a[j..j + |sep|] != sep;
      } else {
        var k := |a| - j;
        var w := s[j..j + |sep|];
        assert w[k..] == sep[..|sep| - k];
        assert sep[..|sep| - k] != sep[|sep| - (|sep| - k)..];
        assert w != sep;
      }
    }
  }

  /** If `a` lacks the first character of `sep`, the first `sep` of `a + sep + b` is the one after `a`. */
  lemma FirstOccurrenceHead(a: string, sep: string, b: string)
    requires |sep| > 0 && sep[0] !in a
    ensures IndexOf(a + sep + b, sep) == |a|
  {
    var s := a + sep + b;
    assert s[|a|..] == sep + b;
    assert MatchAt(s, sep, |a|);
    forall j: nat | j < |a| ensures !MatchAt(s, sep, j) {
      assert s[j] == a[j];
    }
  }

  /** When the first `sep` sits right after `a`, the split pieces are `a` and what follows. */
  lemma SplitAt(a: string, sep: string, b: string)
    requires |sep| > 0 && IndexOf(a + sep + b, sep) == |a|
    ensures Before(a + sep + b, sep) == a
    ensures After(a + sep + b, sep) == Some(b)
  {
    var s := a + sep + b;
    assert s[..|a|] == a;
    assert s[|a| + |sep|..] == b;
  }

  /** A text without some character of `t` does not contain `t`. */
  lemma MissingChar(s: string, t: string, c: char)
    requires c in t && c !in s
    ensures !Contains(s, t)
  {
    var k :| 0 <= k < |t| && t[k] == c;
    forall j: nat ensures !MatchAt(s, t, j) {
      if j + |t| <= |s| {
        assert s[j..][k] == s[j + k];
      }
    }
  }

  /** Whatever occurs in a part occurs in the whole. */
  lemma ContainsInfix(x: string, y: string, z: string, t: string)
    requires Contains(y, t)
    ensures Contains(x + y + z, t)
  {
    var j: nat :| MatchAt(y, t, j);
    var s := x + y + z;
    assert s[|x| + j..][..|t|] == y[j..][..|t|];
    assert MatchAt(s, t, |x| + j);
  }

  // ---------------------------------------------------------------------------
  // `s.split(c)` on one character and `sep.join(xs)`

  /** `s.split(c)`: the maximal pieces between occurrences of `c`; never empty. */
  function Split(s: string, c: char): (r: seq<string>)
    ensures |r| >= 1
    ensures forall i :: 0 <= i < |r| ==> c !in r[i]
    ensures |r| == 1 <==> c !in s
    decreases |s|
  {
    if |s| == 0 then [""]
    else
      var rest := Split(s[1..], c);
      if s[0] == c then [""] + rest
      else [[s[0]] + rest[0]] + rest[1..]
  }

  /** `sep.join(xs)`. */
  function Join(xs: seq<string>, sep: string): string
  {
    if |xs| == 0 then ""
    else if |xs| == 1 then xs[0]
    else xs[0] + sep + Join(xs[1..], sep)
  }

  /** `''.join(xs)`. */
  function Concat(xs: seq<string>): string
  {
    Join(xs, "")
  }

  /** Joining the pieces of a split with the separator gives the text back. */
  lemma {:induction false} JoinSplit(s: string, c: char)
    ensures Join(Split(s, c), [c]) == s
    decreases |s|
  {
    if |s| > 0 {
      JoinSplit(s[1..], c);
      var rest := Split(s[1..], c);
      if s[0] == c {
        assert Split(s, c) == [""] + rest;
        assert s == [c] + s[1..];
      } else {
        var r := Split(s, c);
        assert r == [[s[0]] + rest[0]] + rest[1..];
        if |rest| == 1 {
          assert s == [s[0]] + s[1..];
        } else {
          assert r[1..] == rest[1..];
          assert Join(rest, [c]) == rest[0] + [c] + Join(rest[1..], [c]);
          assert s == [s[0]] + s[1..];
        }
      }
    }
  }

  /** A character other than the separator joins the first piece. */
  lemma SplitCons(x: char, s: string, c: char)
    requires x != c
    ensures Split([x] + s, c) == [[x] + Split(s, c)[0]] + Split(s, c)[1..]
  {
    assert ([x] + s)[1..] == s;
  }

  /** A leading separator starts with an empty piece. */
  lemma SplitSep(s: string, c: char)
    ensures Split([c] + s, c) == [""] + Split(s, c)
  {
    assert ([c] + s)[1..] == s;
  }

  /** Splitting `a + [c] + b` where `a` holds no `c` yields `a` first. */
  lemma {:induction false} SplitAfterFirst(a: string, c: char, b: string)
    requires c !in a
    ensures Split(a + [c] + b, c) == [a] + Split(b, c)
    decreases |a|
  {
    if |a| == 0 {
      assert a + [c] + b == [c] + b;
      SplitSep(b, c);
    } else {
      var t := a[1..] + [c] + b;
      assert a + [c] + b == [a[0]] + t;
      assert a[0] != c && c !in a[1..];
      SplitAfterFirst(a[1..], c, b);
      SplitCons(a[0], t, c);
      assert [a[0]] + a[1..] == a;
    }
  }

  /** Without `c`, the text is its only piece. */
  lemma {:induction false} SplitNone(a: string, c: char)
    requires c !in a
    ensures Split(a, c) == [a]
    decreases |a|
  {
    if |a| > 0 {
      SplitNone(a[1..], c);
      assert [a[0]] + a[1..] == a;
    }
  }

  /** Splitting a join gives back the pieces when no piece contains the separator. */
  lemma {:induction false} SplitJoin(xs: seq<string>, c: char)
    requires |xs| >= 1
    requires forall i :: 0 <= i < |xs| ==> c !in xs[i]
    ensures Split(Join(xs, [c]), c) == xs
    decreases |xs|
  {
    if |xs| == 1 {
      SplitNone(xs[0], c);
    } else {
      SplitJoin(xs[1..], c);
      SplitAfterFirst(xs[0], c, Join(xs[1..], [c]));
      assert [xs[0]] + xs[1..] == xs;
    }
  }

  // ---------------------------------------------------------------------------
  // `s.split()`: whitespace-separated words

  /** The length of the leading run of non-whitespace characters. */
  function WordLen(s: string): (n: nat)
    ensures n <= |s|
    ensures NoSpace(s[..n])
    ensures n < |s| ==> IsSpace(s[n])
  {
    if |s| == 0 || IsSpace(s[0]) then 0
    else
      var k := WordLen(s[1..]);
      assert s[..k + 1] == [s[0]] + s[1..][..k];
      k + 1
  }

  /** `s.split()`: the maximal runs of non-whitespace characters, in order. */
  function Words(s: string): (r: seq<string>)
    ensures forall i :: 0 <= i < |r| ==> |r[i]| > 0 && NoSpace(r[i])
    decreases |s|
  {
    if |s| == 0 then []
    else if IsSpace(s[0]) then Words(s[1..])
    else
      var n := WordLen(s);
      [s[..n]] + Words(s[n..])
  }

  /** A word followed by a space and more text is the first word of the whole. */
  lemma WordsCons(w: string, rest: string)
    requires |w| > 0 && NoSpace(w)
    ensures Words(w + " " + rest) == [w] + Words(rest)
  {
    var t := " " + rest;
    var s := w + t;
    assert s == w + " " + rest;
    assert t[0] == ' ' && t[1..] == rest;
    WordLenOfWord(w, t);
    assert s[0] == w[0] && !IsSpace(s[0]);
    assert s[..|w|] == w && s[|w|..] == t;
    assert Words(s) == [w] + Words(t);
    assert Words(t) == Words(rest);
  }

  /** The leading run of a word followed by whitespace is exactly the word. */
  lemma {:induction false} WordLenOfWord(w: string, rest: string)
    requires NoSpace(w)
    requires |rest| > 0 && IsSpace(rest[0])
    ensures WordLen(w + rest) == |w|
    decreases |w|
  {
    if |w| > 0 {
      WordLenOfWord(w[1..], rest);
      assert (w + rest)[1..] == w[1..] + rest;
    }
  }

  /** Joining words with single spaces and splitting on whitespace gives the words back. */
  lemma {:induction false} WordsJoin(ws: seq<string>)
    requires forall i :: 0 <= i < |ws| ==> |ws[i]| > 0 && NoSpace(ws[i])
    ensures Words(Join(ws, " ")) == ws
    decreases |ws|
  {
    if |ws| == 1 {
      var w := ws[0];
      assert WordLen(w) == |w| by {
        assert forall k :: 0 <= k <= |w| ==> NoSpace(w[..k]);
      }
      assert w[..|w|] == w && w[|w|..] == [];
    } else if |ws| > 1 {
      WordsJoin(ws[1..]);
      WordsCons(ws[0], Join(ws[1..], " "));
      assert [ws[0]] + ws[1..] == ws;
    }
  }

  /** `''.join(s.split())`: the text with all whitespace removed. */
  function RemoveSpaces(s: string): (r: string)
    ensures NoSpace(r)
    ensures r == Squeeze(s)
  {
    var ws := Words(s);
    ConcatNoSpace(ws);
    ConcatWords(s);
    Concat(ws)
  }

  /** The characters of `s` that are not whitespace, in order. */
  function Squeeze(s: string): string
    decreases |s|
  {
    if |s| == 0 then "" else (if IsSpace(s[0]) then "" else [s[0]]) + Squeeze(s[1..])
  }

  lemma {:induction false} SqueezeAppend(a: string, b: string)
    ensures Squeeze(a + b) == Squeeze(a) + Squeeze(b)
    decreases |a|
  {
    if |a| == 0 {
      assert a + b == b;
    } else {
      assert (a + b)[0] == a[0] && (a + b)[1..] == a[1..] + b;
      SqueezeAppend(a[1..], b);
    }
  }

  lemma {:induction false} SqueezeNoSpace(s: string)
    requires NoSpace(s)
    ensures Squeeze(s) == s
    decreases |s|
  {
    if |s| > 0 {
      SqueezeNoSpace(s[1..]);
      assert [s[0]] + s[1..] == s;
    }
  }

  /** Gluing the words of `s` together keeps exactly its non-whitespace
      characters. */
  lemma {:induction false} ConcatWords(s: string)
    ensures Concat(Words(s)) == Squeeze(s)
    decreases |s|
  {
    if |s| > 0 {
      if IsSpace(s[0]) {
        ConcatWords(s[1..]);
      } else {
        var n := WordLen(s);
        var ws := Words(s[n..]);
        ConcatWords(s[n..]);
        assert Words(s) == [s[..n]] + ws;
        if |ws| > 0 {
          assert ([s[..n]] + ws)[1..] == ws;
        }
        assert Concat([s[..n]] + ws) == s[..n] + Concat(ws);
        assert s == s[..n] + s[n..];
        SqueezeAppend(s[..n], s[n..]);
        SqueezeNoSpace(s[..n]);
      }
    }
  }

  lemma {:induction false} ConcatNoSpace(ws: seq<string>)
    requires forall i :: 0 <= i < |ws| ==> NoSpace(ws[i])
    ensures NoSpace(Concat(ws))
    decreases |ws|
  {
    if |ws| > 1 {
      ConcatNoSpace(ws[1..]);
      assert Concat(ws) == ws[0] + Concat(ws[1..]);
    }
  }

  // ---------------------------------------------------------------------------
  // Case mapping and replacement

  function LowerChar(c: char): char {
    if IsUpper(c) then (c as int + 32) as char else c
  }

  function UpperChar(c: char): char {
    if IsLower(c) then (c as int - 32) as char else c
  }

  /** `s.lower()`: no upper-case letter is left; each upper-case letter
      becomes the lower-case letter 32 code points above it, and every other
      character stays where it is. */
  function Lower(s: string): (r: string)
    ensures |r| == |s|
    ensures forall i :: 0 <= i < |r| ==> !IsUpper(r[i])
    ensures forall i :: 0 <= i < |s| && !IsUpper(s[i]) ==> r[i] == s[i]
    ensures forall i :: 0 <= i < |s| && IsUpper(s[i]) ==> IsLower(r[i]) && r[i] as int == s[i] as int + 32
  {
    seq(|s|, i requires 0 <= i < |s| => LowerChar(s[i]))
  }

  /** Lowering a lowered text changes nothing. */
  lemma LowerIdempotent(s: string)
    ensures Lower(Lower(s)) == Lower(s)
  {
  }

  /** Two texts are equal ignoring case exactly when, position by position,
      their characters are equal or are the two cases of one letter. */
  lemma LowerEqual(s: string, t: string)
    ensures Lower(s) == Lower(t) <==>
      |s| == |t| && forall i :: 0 <= i < |s| ==> LowerChar(s[i]) == LowerChar(t[i])
  {
    if |s| == |t| && forall i :: 0 <= i < |s| ==> LowerChar(s[i]) == LowerChar(t[i]) {
      forall i | 0 <= i < |s| ensures Lower(s)[i] == Lower(t)[i] {
        assert Lower(s)[i] == LowerChar(s[i]);
      }
    } else if Lower(s) == Lower(t) {
      forall i | 0 <= i < |s| ensures LowerChar(s[i]) == LowerChar(t[i]) {
        assert Lower(s)[i] == LowerChar(s[i]) && Lower(t)[i] == LowerChar(t[i]);
      }
    }
  }

  /** `s.title()` continuing after a character that was (`prevCased`) or was not a letter. */
  function TitleFrom(s: string, prevCased: bool): (r: string)
    ensures |r| == |s|
    ensures forall i :: 0 <= i < |s| && !IsCased(s[i]) ==> r[i] == s[i]
    ensures forall i :: 0 <= i < |s| && IsCased(s[i]) ==> IsCased(r[i]) && LowerChar(r[i]) == LowerChar(s[i])
    ensures forall i :: 0 <= i < |s| && IsCased(s[i]) ==>
              (IsUpper(r[i]) <==> !(if i == 0 then prevCased else IsCased(s[i - 1])))
    decreases |s|
  {
    if |s| == 0 then ""
    else
      var c := s[0];
      var cased := IsCased(c);
      var d := if !cased then c else if prevCased then LowerChar(c) else UpperChar(c);
      var rest := TitleFrom(s[1..], cased);
      assert forall i :: 1 <= i < |s| ==> s[1..][i - 1] == s[i] && ([d] + rest)[i] == rest[i - 1];
      [d] + rest
  }

  /** A letter: a character that has an upper and a lower case. */
  predicate IsCased(c: char) {
    IsUpper(c) || IsLower(c)
  }

  /** `s.title()`: every letter that follows a non-letter (or starts the text) is
      upper case, every other letter lower case; letters keep their identity
      and other characters stay as they are. */
  function Title(s: string): (r: string)
    ensures |r| == |s|
    ensures forall i :: 0 <= i < |s| && !IsCased(s[i]) ==> r[i] == s[i]
    ensures forall i :: 0 <= i < |s| && IsCased(s[i]) ==> IsCased(r[i]) && LowerChar(r[i]) == LowerChar(s[i])
    ensures forall i :: 0 <= i < |s| && IsCased(s[i]) ==> (IsUpper(r[i]) <==> i == 0 || !IsCased(s[i - 1]))
  {
    TitleFrom(s, false)
  }

  /** `s.replace(pat, rep)`: occurrences of `pat`, found left to right without overlap, become `rep`. */
  function Replace(s: string, pat: string, rep: string): (r: string)
    requires |pat| > 0
    ensures forall ch :: ch in r ==> ch in s || ch in rep
    ensures |pat| == 1 && pat[0] !in rep ==> pat[0] !in r
    decreases |s|
  {
    if |s| == 0 then ""
    else if pat <= s then
      var tail := s[|pat|..];
      assert forall ch :: ch in tail ==> ch in s;
      rep + Replace(tail, pat, rep)
    else
      assert forall ch :: ch in s[1..] ==> ch in s;
      [s[0]] + Replace(s[1..], pat, rep)
  }

  /** A text holding the pattern once, with the pattern's first character
      nowhere else, has exactly that occurrence replaced. */
  lemma {:induction false} ReplaceOnce(pre: string, pat: string, post: string, rep: string)
    requires |pat| > 0 && pat[0] !in pre && pat[0] !in post
    ensures Replace(pre + pat + post, pat, rep) == pre + rep + post
    decreases |pre|
  {
    var s := pre + pat + post;
    if |pre| == 0 {
      assert s == pat + post && s[|pat|..] == post;
      MissingChar(post, pat, pat[0]);
      ReplaceAbsent(post, pat, rep);
    } else {
      assert s[0] == pre[0] != pat[0];
      assert s[1..] == pre[1..] + pat + post;
      ReplaceOnce(pre[1..], pat, post, rep);
      assert [pre[0]] + pre[1..] == pre;
    }
  }

  /** Replacing a pattern that does not occur changes nothing. */
  lemma {:induction false} ReplaceAbsent(s: string, pat: string, rep: string)
    requires |pat| > 0
    requires !Contains(s, pat)
    ensures Replace(s, pat, rep) == s
    decreases |s|
  {
    if |s| > 0 {
      assert !MatchAt(s, pat, 0);
      forall j: nat ensures !MatchAt(s[1..], pat, j) {
        assert !MatchAt(s, pat, j + 1);
        if j <= |s| - 1 {
          assert s[1..][j..] == s[j + 1..];
        }
      }
      ReplaceAbsent(s[1..], pat, rep);
      assert [s[0]] + s[1..] == s;
    }
  }

  /** With a one-character pattern the first character is replaced or kept,
      then the rest is replaced. */
  lemma ReplaceCharHead(s: string, c: char, rep: string)
    requires |s| > 0
    ensures Replace(s, [c], rep) == (if s[0] == c then rep else [s[0]]) + Replace(s[1..], [c], rep)
  {
    assert [c] <= s <==> s[0] == c;
  }

  /** Replacing a one-character pattern distributes over concatenation. */
  lemma {:induction false} ReplaceCharAppend(a: string, b: string, c: char, rep: string)
    ensures Replace(a + b, [c], rep) == Replace(a, [c], rep) + Replace(b, [c], rep)
    decreases |a|
  {
    if |a| == 0 {
      assert a + b == b;
    } else {
      ReplaceCharHead(a + b, c, rep);
      ReplaceCharHead(a, c, rep);
      assert (a + b)[0] == a[0] && (a + b)[1..] == a[1..] + b;
      ReplaceCharAppend(a[1..], b, c, rep);
    }
  }

  /** Every `c` of `s` turned into `d`, position by position. */
  function SwapChar(s: string, c: char, d: char): (r: string)
    ensures |r| == |s|
  {
    seq(|s|, i requires 0 <= i < |s| => if s[i] == c then d else s[i])
  }

  /** Replacing a one-character pattern by a one-character text is a
      position-by-position substitution. */
  lemma {:induction false} ReplaceChar(s: string, c: char, d: char)
    ensures Replace(s, [c], [d]) == SwapChar(s, c, d)
    decreases |s|
  {
    if |s| > 0 {
      ReplaceChar(s[1..], c, d);
      assert [c] <= s <==> s[0] == c;
      assert SwapChar(s, c, d) == [if s[0] == c then d else s[0]] + SwapChar(s[1..], c, d);
    }
  }

  // ---------------------------------------------------------------------------
  // Digits

  /** The length of the leading run of decimal digits. */
  function DigitLen(s: string): (n: nat)
    ensures n <= |s|
    ensures forall i :: 0 <= i < n ==> IsDigit(s[i])
    ensures n < |s| ==> !IsDigit(s[n])
  {
    if |s| == 0 || !IsDigit(s[0]) then 0 else 1 + DigitLen(s[1..])
  }

  /** `re.split('\D+', s)[0]`: the leading run of decimal digits (empty when `s`
      starts with anything else). */
  function LeadingDigits(s: string): (r: string)
    ensures r <= s
    ensures forall i :: 0 <= i < |r| ==> IsDigit(r[i])
    ensures |r| < |s| ==> !IsDigit(s[|r|])
  {
    s[..DigitLen(s)]
  }
}
