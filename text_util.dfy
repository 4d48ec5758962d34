/**
  Character classes and string helpers shared by the backend (Python) and
  front-end (JavaScript) models.

  Both languages are modelled over ASCII only: `\w` is `[A-Za-z0-9_]`,
  case mapping touches only `A`-`Z`, and white space is the ASCII part of
  each language's white-space class.
 */
module TextUtil {

  /** Which language's notion of white space is meant. */
  datatype Dialect = Python | JavaScript

  /** ASCII white space: Python's `str.isspace` (also `\s` in `re` and what
      `str.split()`/`str.strip()` skip) adds the separators 0x1C-0x1F to the
      six characters JavaScript's `\s` and `trim` share. */
  predicate IsSpace(c: char, d: Dialect)
  {
    c == ' ' || (9 <= c as int <= 13) || (d == Python && 28 <= c as int <= 31)
  }

  /** `\w` over ASCII. */
  predicate IsWordChar(c: char)
  {
    ('a' <= c <= 'z') || ('A' <= c <= 'Z') || ('0' <= c <= '9') || c == '_'
  }

  function LowerChar(c: char): char
  {
    if 'A' <= c <= 'Z' then (c as int + 32) as char else c
  }

  function UpperChar(c: char): char
  {
    if 'a' <= c <= 'z' then (c as int - 32) as char else c
  }

  /** `str.lower()` / `String.prototype.toLowerCase()` on ASCII. */
  function Lower(s: string): (r: string)
    ensures |r| == |s|
    ensures forall i :: 0 <= i < |s| ==> r[i] == LowerChar(s[i])
  {
    seq(|s|, i requires 0 <= i < |s| => LowerChar(s[i]))
  }

  /** `str.upper()` / `String.prototype.toUpperCase()` on ASCII. */
  function Upper(s: string): (r: string)
    ensures |r| == |s|
    ensures forall i :: 0 <= i < |s| ==> r[i] == UpperChar(s[i])
  {
    seq(|s|, i requires 0 <= i < |s| => UpperChar(s[i]))
  }

  /** How many white-space characters `s` starts with. */
  function LeadingSpaces(s: string, d: Dialect): (k: nat)
    ensures k <= |s|
    ensures forall j :: 0 <= j < k ==> IsSpace(s[j], d)
    ensures k == |s| || !IsSpace(s[k], d)
    decreases |s|
  {
    if s != [] && IsSpace(s[0], d) then 1 + LeadingSpaces(s[1..], d) else 0
  }

  /** Where the white space that `s` ends with begins. */
  function TrailingStart(s: string, d: Dialect): (k: nat)
    ensures k <= |s|
    ensures forall j :: k <= j < |s| ==> IsSpace(s[j], d)
    ensures k == 0 || !IsSpace(s[k - 1], d)
    decreases |s|
  {
    if s != [] && IsSpace(s[|s| - 1], d) then TrailingStart(s[..|s| - 1], d) else |s|
  }

  /** Drops the white space at the front of `s`. */
  function TrimStart(s: string, d: Dialect): string
  {
    s[LeadingSpaces(s, d)..]
  }

  /** Drops the white space at the end of `s`. */
  function TrimEnd(s: string, d: Dialect): string
  {
    s[..TrailingStart(s, d)]
  }

  /** Python's `str.strip()` and JavaScript's `String.prototype.trim()`. */
  function Strip(s: string, d: Dialect): string
  {
    TrimEnd(TrimStart(s, d), d)
  }

  /** The longest prefix of `s` holding no white space. */
  function TakeWord(s: string, d: Dialect): (w: string)
    ensures |w| <= |s| && w == s[..|w|]
    ensures Spaceless(w, d)
    ensures |w| == |s| || IsSpace(s[|w|], d)
    decreases |s|
  {
    if s == [] || IsSpace(s[0], d) then [] else [s[0]] + TakeWord(s[1..], d)
  }

  /** `w` holds no white space. */
  predicate Spaceless(w: string, d: Dialect)
  {
    forall j :: 0 <= j < |w| ==> !IsSpace(w[j], d)
  }

  /** Python's `str.split()` with no argument: the maximal runs of non-space
      characters, in order; empty fields never appear. */
  function Split(s: string): (ws: seq<string>)
    ensures forall k :: 0 <= k < |ws| ==> ws[k] != [] && Spaceless(ws[k], Python)
    decreases |s|
  {
    var k := LeadingSpaces(s, Python);
    if k == |s| then []
    else
      var t := s[k..];
      var w := TakeWord(t, Python);
      assert t[0] == s[k];
      var rest := Split(t[|w|..]);
      ConsWords(w, rest);
      [w] + rest
  }

  /** JavaScript's `s.split(/\s+/)`: the fields between maximal white-space
      runs, keeping the empty field before a leading run or after a trailing
      one; the empty string gives one empty field. */
  function SplitOnSpaceRuns(s: string): (ws: seq<string>)
    ensures |ws| >= 1
    ensures forall k :: 0 <= k < |ws| ==> Spaceless(ws[k], JavaScript)
    decreases |s|
  {
    var w := TakeWord(s, JavaScript);
    if |w| == |s| then [s]
    else
      var rest := SplitOnSpaceRuns(TrimStart(s[|w|..], JavaScript));
      ConsWords(w, rest);
      [w] + rest
  }

  /** Putting a word in front of a list of words: the word comes first,
      then the entries of the list. */
  lemma {:induction false} ConsWords(w: string, rest: seq<string>)
    ensures ([w] + rest)[0] == w
    ensures forall k :: 1 <= k < |[w] + rest| ==> ([w] + rest)[k] == rest[k - 1]
  {
  }

  /** `sep.join(ws)` in Python, `ws.join(sep)` in JavaScript. */
  function Join(ws: seq<string>, sep: string): string
  {
    if ws == [] then ""
    else if |ws| == 1 then ws[0]
    else ws[0] + sep + Join(ws[1..], sep)
  }

  /** `s.includes(p)` / `p in s`: `p` occurs in `s` as a contiguous block. */
  predicate Contains(s: string, p: string)
  {
    exists i :: 0 <= i <= |s| && OccursAt(s, p, i)
  }

  /** `p` occurs in `s` starting at index `i`. */
  predicate OccursAt(s: string, p: string, i: nat)
  {
    i + |p| <= |s| && s[i..i + |p|] == p
  }

  /** A string is blank after stripping exactly when every character of it
      is white space. */
  lemma {:induction false} StripEmptyIff(s: string, d: Dialect)
    ensures Strip(s, d) == [] <==> forall j :: 0 <= j < |s| ==> IsSpace(s[j], d)
  {
    var k := LeadingSpaces(s, d);
    var t := s[k..];
    if k < |s| {
      assert t[0] == s[k] && !IsSpace(t[0], d);
      assert TrailingStart(t, d) > 0;
    }
  }

  /** What stripping leaves is the block of `s` after its leading white
      space. */
  lemma {:induction false} StripBlock(s: string, d: Dialect)
    ensures LeadingSpaces(s, d) + |Strip(s, d)| <= |s|
    ensures forall j :: 0 <= j < |Strip(s, d)| ==> Strip(s, d)[j] == s[LeadingSpaces(s, d) + j]
  {
    var a := LeadingSpaces(s, d);
    var t := s[a..];
    var b := TrailingStart(t, d);
    assert Strip(s, d) == t[..b];
  }

  /** Every character of `s` after that block is white space (and so,
      by `LeadingSpaces`, is every one before it). */
  lemma {:induction false} StripTail(s: string, d: Dialect)
    ensures forall j :: LeadingSpaces(s, d) + |Strip(s, d)| <= j < |s| ==> IsSpace(s[j], d)
  {
    var a := LeadingSpaces(s, d);
    var t := s[a..];
    var b := TrailingStart(t, d);
    assert |Strip(s, d)| == b;
    forall j | a + b <= j < |s|
      ensures IsSpace(s[j], d)
    {
      assert s[j] == t[j - a];
    }
  }

  /** What stripping leaves does not start with white space. */
  lemma {:induction false} StripStartsWithNonSpace(s: string, d: Dialect)
    ensures Strip(s, d) != [] ==> !IsSpace(Strip(s, d)[0], d)
  {
    var a := LeadingSpaces(s, d);
    if Strip(s, d) != [] {
      assert Strip(s, d)[0] == s[a];
    }
  }

  /** Python's `str.split()` finds a token exactly when the string holds a
      character that is not white space. */
  lemma {:induction false} SplitEmptyIff(s: string)
    ensures Split(s) == [] <==> forall j :: 0 <= j < |s| ==> IsSpace(s[j], Python)
  {
    var k := LeadingSpaces(s, Python);
    if k < |s| {
      assert !IsSpace(s[k], Python);
    }
  }

  /** `s` with every maximal run of white space replaced by one space,
      character by character: a white-space character followed by another
      is dropped, and the last one of a run becomes a space. */
  function Collapse(s: string, d: Dialect): string
    decreases |s|
  {
    if s == [] then []
    else
      var head := if !IsSpace(s[0], d) then [s[0]]
                  else if |s| > 1 && IsSpace(s[1], d) then []
                  else " ";
      head + Collapse(s[1..], d)
  }

  /** A run of white space at the front collapses to one space. */
  lemma {:induction false} CollapseRun(u: string, d: Dialect)
    requires u != [] && IsSpace(u[0], d)
    ensures Collapse(u, d) == " " + Collapse(u[LeadingSpaces(u, d)..], d)
    decreases |u|
  {
    var r := u[1..];
    assert LeadingSpaces(u, d) == 1 + LeadingSpaces(r, d);
    if |u| > 1 && IsSpace(u[1], d) {
      assert r[0] == u[1];
      CollapseRun(r, d);
      assert r[LeadingSpaces(r, d)..] == u[LeadingSpaces(u, d)..];
      assert Collapse(u, d) == [] + Collapse(r, d);
    } else {
      assert r == [] || !IsSpace(r[0], d);
      assert u[LeadingSpaces(u, d)..] == r;
    }
  }

  /** The scan for leading white space stops at the first other character. */
  lemma {:induction false} LeadingSpacesUnique(s: string, d: Dialect, k: nat)
    requires k <= |s| && (forall j :: 0 <= j < k ==> IsSpace(s[j], d))
    requires k == |s| || !IsSpace(s[k], d)
    ensures LeadingSpaces(s, d) == k
    decreases k
  {
    if k > 0 {
      assert IsSpace(s[0], d);
      var r := s[1..];
      assert forall j :: 0 <= j < k - 1 ==> r[j] == s[j + 1];
      assert k - 1 == |r| || r[k - 1] == s[k];
      LeadingSpacesUnique(r, d, k - 1);
    }
  }

  /** The scan for trailing white space stops after the last other character. */
  lemma {:induction false} TrailingStartUnique(s: string, d: Dialect, k: nat)
    requires k <= |s| && (forall j :: k <= j < |s| ==> IsSpace(s[j], d))
    requires k == 0 || !IsSpace(s[k - 1], d)
    ensures TrailingStart(s, d) == k
    decreases |s|
  {
    if k < |s| {
      assert IsSpace(s[|s| - 1], d);
      var r := s[..|s| - 1];
      assert forall j :: k <= j < |r| ==> r[j] == s[j];
      assert k == 0 || r[k - 1] == s[k - 1];
      TrailingStartUnique(r, d, k);
    }
  }

  /** The longest space-free prefix of `w + y` is `w` when `y` is empty or
      starts with white space. */
  lemma {:induction false} TakeWordUnique(w: string, y: string, d: Dialect)
    requires Spaceless(w, d) && (y == [] || IsSpace(y[0], d))
    ensures TakeWord(w + y, d) == w
    decreases |w|
  {
    if w == [] {
      assert w + y == y;
    } else {
      var s := w + y;
      assert s[0] == w[0];
      assert s[1..] == w[1..] + y;
      TakeWordUnique(w[1..], y, d);
      assert w == [w[0]] + w[1..];
    }
  }

  /** Trailing white space of `w + y` lies in `y` when `w` ends with another
      character or `y` holds one. */
  lemma {:induction false} TrailingStartAppend(w: string, y: string, d: Dialect)
    requires (w != [] && !IsSpace(w[|w| - 1], d)) || TrailingStart(y, d) > 0
    ensures TrailingStart(w + y, d) == |w| + TrailingStart(y, d)
  {
    var s := w + y;
    var k := TrailingStart(y, d);
    forall j | |w| + k <= j < |s|
      ensures IsSpace(s[j], d)
    {
      assert s[j] == y[j - |w|];
    }
    if k > 0 {
      assert s[|w| + k - 1] == y[k - 1];
    } else {
      assert s[|w| - 1] == w[|w| - 1];
    }
    TrailingStartUnique(s, d, |w| + k);
  }

  /** Collapsing leaves a space-free prefix alone. */
  lemma {:induction false} CollapseSpaceless(w: string, t: string, d: Dialect)
    requires Spaceless(w, d)
    ensures Collapse(w + t, d) == w + Collapse(t, d)
    decreases |w|
  {
    if w == [] {
      assert w + t == t;
    } else {
      assert (w + t)[0] == w[0];
      assert (w + t)[1..] == w[1..] + t;
      CollapseSpaceless(w[1..], t, d);
      assert w == [w[0]] + w[1..];
    }
  }

  /** A string of white space only collapses to nothing or to one space. */
  lemma {:induction false} CollapseSpaces(s: string, d: Dialect)
    requires forall j :: 0 <= j < |s| ==> IsSpace(s[j], d)
    ensures Collapse(s, d) == if s == [] then [] else " "
  {
    if s != [] {
      CollapseRun(s, d);
      LeadingSpacesUnique(s, d, |s|);
      assert s[|s|..] == [];
    }
  }

  /** Joining the fields of `s.split(/\s+/)` with one space gives back `s`
      with each white-space run replaced by one space. */
  lemma {:induction false} JoinSplitOnSpaceRuns(s: string)
    ensures Join(SplitOnSpaceRuns(s), " ") == Collapse(s, JavaScript)
    decreases |s|
  {
    var d := JavaScript;
    var w := TakeWord(s, d);
    if |w| == |s| {
      assert s == w + [];
      CollapseSpaceless(w, [], d);
    } else {
      var u := s[|w|..];
      assert s == w + u;
      assert u[0] == s[|w|];
      var rest := SplitOnSpaceRuns(TrimStart(u, d));
      JoinSplitOnSpaceRuns(TrimStart(u, d));
      CollapseRun(u, d);
      var ws := [w] + rest;
      assert ws[1..] == rest;
      JoinCons(ws, " ");
      CollapseSpaceless(w, u, d);
    }
  }

  /** Stripping `p + w + c`, with `p` white space and `w` a non-empty
      space-free word, leaves `w` followed by `c` without its trailing white space. */
  lemma {:induction false} StripAroundWord(p: string, w: string, c: string, d: Dialect)
    requires forall j :: 0 <= j < |p| ==> IsSpace(p[j], d)
    requires w != [] && Spaceless(w, d)
    ensures Strip(p + (w + c), d) == w + TrimEnd(c, d)
  {
    var s := p + (w + c);
    assert s[|p|] == w[0];
    LeadingSpacesUnique(s, d, |p|);
    assert s[|p|..] == w + c;
    TrailingStartAppend(w, c, d);
  }

  /** One space in front of a string that starts with another character. */
  lemma {:induction false} TrimAfterSpace(c: string, d: Dialect)
    requires c != [] && !IsSpace(c[0], d)
    ensures TrimStart(" " + c, d) == c
    ensures TrimEnd(" " + c, d) == " " + TrimEnd(c, d)
  {
    var cu := " " + c;
    assert cu[1] == c[0];
    LeadingSpacesUnique(cu, d, 1);
    assert cu[1..] == c;
    var n := TrailingStart(c, d);
    TrailingStartAppend(" ", c, d);
    assert cu[..1 + n] == " " + c[..n];
  }

  /** The collapse of white space followed by something else is one space
      and the stripped collapse of the rest. */
  lemma {:induction false} TrimEndCollapsed(u: string, d: Dialect)
    requires u != [] && IsSpace(u[0], d)
    requires !forall j :: 0 <= j < |u| ==> IsSpace(u[j], d)
    ensures TrimEnd(Collapse(u, d), d) == " " + Strip(Collapse(u, d), d)
  {
    var m := LeadingSpaces(u, d);
    var c := Collapse(u[m..], d);
    CollapseRun(u, d);
    assert u[m..][0] == u[m];
    assert c[0] == u[m];
    TrimAfterSpace(c, d);
  }

  /** A string of white space only collapses to nothing once trimmed. */
  lemma {:induction false} TrimEndCollapsedSpaces(u: string, d: Dialect)
    requires forall j :: 0 <= j < |u| ==> IsSpace(u[j], d)
    ensures TrimEnd(Collapse(u, d), d) == []
  {
    CollapseSpaces(u, d);
    if u != [] {
      TrailingStartUnique(Collapse(u, d), d, 0);
    }
  }

  /** Stripping the collapse of a string with a token in it: the first token,
      then the collapse of what follows it without its trailing white space. */
  lemma {:induction false} StripCollapseFirst(s: string, d: Dialect)
    requires LeadingSpaces(s, d) < |s|
    ensures var t := s[LeadingSpaces(s, d)..]; var w := TakeWord(t, d);
      Strip(Collapse(s, d), d) == w + TrimEnd(Collapse(t[|w|..], d), d)
  {
    var k := LeadingSpaces(s, d);
    var t := s[k..];
    assert t[0] == s[k];
    var w := TakeWord(t, d);
    var p: string := if k > 0 then " " else "";
    CollapseFirst(s, d);
    StripAroundWord(p, w, Collapse(t[|w|..], d), d);
  }

  /** The collapse of a string with a token in it: one space for any
      leading white space, then the first token, then the collapse of the rest. */
  lemma {:induction false} CollapseFirst(s: string, d: Dialect)
    requires LeadingSpaces(s, d) < |s|
    ensures var k := LeadingSpaces(s, d); var t := s[k..]; var w := TakeWord(t, d);
      Collapse(s, d) == (if k > 0 then " " else "") + (w + Collapse(t[|w|..], d))
  {
    var k := LeadingSpaces(s, d);
    var t := s[k..];
    var w := TakeWord(t, d);
    var u := t[|w|..];
    assert t == w + u;
    CollapseSpaceless(w, u, d);
    if k == 0 {
      assert t == s;
    } else {
      CollapseRun(s, d);
    }
  }

  /** `Split` on a string starting with a word. */
  lemma {:induction false} SplitWordThen(w: string, y: string)
    requires w != [] && Spaceless(w, Python) && (y == [] || IsSpace(y[0], Python))
    ensures Split(w + y) == [w] + Split(y)
  {
    var s := w + y;
    assert s[0] == w[0];
    LeadingSpacesUnique(s, Python, 0);
    assert s[0..] == s;
    TakeWordUnique(w, y, Python);
    assert s[|w|..] == y;
  }

  /** `s.split(/\s+/)` on a word, one space and a string not starting with
      white space. */
  lemma {:induction false} SplitOnSpaceRunsWordThen(w: string, j: string)
    requires Spaceless(w, JavaScript) && (j == [] || !IsSpace(j[0], JavaScript))
    ensures SplitOnSpaceRuns(w + (" " + j)) == [w] + SplitOnSpaceRuns(j)
  {
    var d := JavaScript;
    var s := w + (" " + j);
    TakeWordUnique(w, " " + j, d);
    assert s[|w|..] == " " + j;
    assert (" " + j)[1..] == j;
    LeadingSpacesUnique(" " + j, d, 1);
  }

  /** Joining a list of at least two strings. */
  lemma {:induction false} JoinCons(ws: seq<string>, sep: string)
    requires |ws| >= 2
    ensures Join(ws, sep) == ws[0] + (sep + Join(ws[1..], sep))
  {
    assert ws[0] + sep + Join(ws[1..], sep) == ws[0] + (sep + Join(ws[1..], sep));
  }

  /** Joining the tokens of Python's `str.split()` with one space gives `s`
      with each white-space run replaced by one space and the ends stripped. */
  lemma {:induction false} JoinSplit(s: string)
    ensures Join(Split(s), " ") == Strip(Collapse(s, Python), Python)
    decreases |s|
  {
    var d := Python;
    var k := LeadingSpaces(s, d);
    if k == |s| {
      CollapseSpaces(s, d);
      StripEmptyIff(Collapse(s, d), d);
    } else {
      var t := s[k..];
      var w := TakeWord(t, d);
      var u := t[|w|..];
      var rest := Split(u);
      assert Split(s) == [w] + rest;
      JoinSplit(u);
      StripCollapseFirst(s, d);
      SplitEmptyIff(u);
      if rest == [] {
        TrimEndCollapsedSpaces(u, d);
        assert w + [] == w;
      } else {
        assert u[0] == t[|w|];
        TrimEndCollapsed(u, d);
        JoinCons([w] + rest, " ");
        assert ([w] + rest)[1..] == rest;
      }
    }
  }

  /** Python's `str.split()` takes a string apart again after its non-empty,
      space-free tokens were joined with one space. */
  lemma {:induction false} SplitJoin(ws: seq<string>)
    requires forall k :: 0 <= k < |ws| ==> ws[k] != [] && Spaceless(ws[k], Python)
    ensures Split(Join(ws, " ")) == ws
  {
    if |ws| == 1 {
      SplitWordThen(ws[0], []);
      assert ws[0] + [] == ws[0];
    } else if |ws| > 1 {
      SplitJoin(ws[1..]);
      SplitJoinStep(ws[0], ws[1..]);
      assert [ws[0]] + ws[1..] == ws;
    }
  }

  /** One more token in front of tokens `str.split()` gives back. */
  lemma {:induction false} SplitJoinStep(w: string, tail: seq<string>)
    requires w != [] && Spaceless(w, Python) && |tail| >= 1
    requires Split(Join(tail, " ")) == tail
    ensures Split(Join([w] + tail, " ")) == [w] + tail
  {
    var ws := [w] + tail;
    assert ws[1..] == tail;
    var j := Join(tail, " ");
    JoinCons(ws, " ");
    assert " " + j == [' '] + j;
    SplitWordThen(w, [' '] + j);
    SplitSkipsSpace(' ', j);
  }

  /** A white-space character in front changes nothing for `str.split()`. */
  lemma {:induction false} SplitSkipsSpace(c: char, x: string)
    requires IsSpace(c, Python)
    ensures Split([c] + x) == Split(x)
  {
    var s := [c] + x;
    assert s[1..] == x;
    var k := LeadingSpaces(x, Python);
    assert LeadingSpaces(s, Python) == k + 1;
    if k < |x| {
      assert s[k + 1..] == x[k..];
    }
  }

  /** `s.split(/\s+/)` takes a string apart again after its space-free
      fields were joined with one space, when no field but the first and the
      last is empty. */
  lemma {:induction false} SplitOnSpaceRunsJoin(ws: seq<string>)
    requires |ws| >= 1 && forall k :: 0 <= k < |ws| ==> Spaceless(ws[k], JavaScript)
    requires forall k :: 0 < k < |ws| - 1 ==> ws[k] != []
    ensures SplitOnSpaceRuns(Join(ws, " ")) == ws
  {
    if |ws| == 1 {
      TakeWordUnique(ws[0], [], JavaScript);
      assert ws[0] + [] == ws[0];
    } else {
      var tail := ws[1..];
      var j := Join(tail, " ");
      JoinCons(ws, " ");
      if |tail| > 1 {
        JoinCons(tail, " ");
        assert tail[0] == ws[1] && ws[1] != [];
        assert j[0] == ws[1][0];
      }
      SplitOnSpaceRunsWordThen(ws[0], j);
      SplitOnSpaceRunsJoin(tail);
      assert [ws[0]] + tail == ws;
    }
  }
}
