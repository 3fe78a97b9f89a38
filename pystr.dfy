/** The few Python string built-ins the core relies on, stated over Dafny
    strings: `str.split()` with and without `maxsplit`, `sep.join(...)`,
    `str.isspace()` and the case-insensitive prefix test
    `s.lower().startswith(p)` for an ASCII prefix. */
module PyStr {

  /** Python's `c.isspace()`: tab to carriage return, the four information
      separators, space, NEL, no-break space, and the Unicode space
      separators. */
  predicate IsSpace(c: char) {
    || '\t' <= c <= '\r' || '\U{001C}' <= c <= ' ' || c == '\U{0085}' || c == '\U{00A0}' || c == '\U{1680}'
    || '\U{2000}' <= c <= '\U{200A}' || c == '\U{2028}' || c == '\U{2029}' || c == '\U{202F}' || c == '\U{205F}'
    || c == '\U{3000}'
  }

  /** True when no character of `s` is whitespace. */
  predicate NoSpace(s: string) {
    forall i :: 0 <= i < |s| ==> !IsSpace(s[i])
  }

  /** A word as `str.split()` produces it: non-empty, no whitespace. */
  predicate IsWord(w: string) {
    w != [] && NoSpace(w)
  }

  /** True when every character of `s` is whitespace, i.e. `s.strip() == ""`. */
  predicate AllSpace(s: string) {
    forall i :: 0 <= i < |s| ==> IsSpace(s[i])
  }

  /** The length of the longest prefix of `s` that holds no whitespace. */
  function WordLength(s: string): (n: nat)
    ensures n <= |s|
    ensures s != [] && !IsSpace(s[0]) ==> n > 0
  {
    if s == [] || IsSpace(s[0]) then 0 else 1 + WordLength(s[1..])
  }

  /** Python's `s.split()`: the maximal runs of non-whitespace, in order. */
  function Split(s: string): seq<string>
    decreases |s|
  {
    if s == [] then []
    else if IsSpace(s[0]) then Split(s[1..])
    else
      var n := WordLength(s);
      [s[..n]] + Split(s[n..])
  }

  /** Python's `s.split(maxsplit=k)`: at most `k` words are cut off the front;
      the rest, with its leading whitespace removed but its trailing whitespace
      kept, is the last part. */
  function SplitMax(s: string, k: nat): seq<string>
    decreases |s|
  {
    if s == [] then []
    else if IsSpace(s[0]) then SplitMax(s[1..], k)
    else if k == 0 then [s]
    else
      var n := WordLength(s);
      [s[..n]] + SplitMax(s[n..], k - 1)
  }

  /** Python's `sep.join(ws)`. */
  function Join(ws: seq<string>, sep: string): string
  {
    if ws == [] then ""
    else if |ws| == 1 then ws[0]
    else ws[0] + sep + Join(ws[1..], sep)
  }

  /** Python's `" ".join(ws)`. */
  function JoinSpace(ws: seq<string>): string
  {
    Join(ws, " ")
  }

  /** The concatenation of a sequence of strings (`"".join(ss)`). */
  function Concat(ss: seq<string>): string
  {
    if ss == [] then "" else Concat(ss[..|ss| - 1]) + ss[|ss| - 1]
  }

  /** The concatenation of a sequence of word lists. */
  function Flatten(wss: seq<seq<string>>): seq<string>
  {
    if wss == [] then [] else Flatten(wss[..|wss| - 1]) + wss[|wss| - 1]
  }

  function AsciiLower(c: char): char
  {
    if 'A' <= c <= 'Z' then (c as int + 32) as char else c
  }

  /** `s.lower().startswith(p)`, testing the first |p| characters of `s`
      one by one with ASCII lower-casing. Exact for a prefix `p` of
      lower-case ASCII characters with no "k" and no "i" at its end, such as
      "/function": besides the ASCII capitals, only the Kelvin sign U+212A
      lower-cases to an ASCII letter ("k"), and U+0130 lower-cases to "i"
      followed by U+0307, which no ASCII prefix character can match. */
  predicate LowerStartsWith(s: string, p: string)
  {
    |p| <= |s| && forall i :: 0 <= i < |p| ==> AsciiLower(s[i]) == p[i]
  }

  /** Non-empty, with no whitespace at either end: `s.strip() == s != ""`. */
  predicate Trimmed(s: string) {
    s != [] && !IsSpace(s[0]) && !IsSpace(s[|s| - 1])
  }

  /** Python's `s.endswith(suffix)`. */
  predicate EndsWith(s: string, suffix: string) {
    |suffix| <= |s| && s[|s| - |suffix|..] == suffix
  }

  /** The words of each string of `ss`. */
  function SplitEach(ss: seq<string>): (r: seq<seq<string>>)
    ensures |r| == |ss| && forall i :: 0 <= i < |ss| ==> r[i] == Split(ss[i])
  {
    seq(|ss|, i requires 0 <= i < |ss| => Split(ss[i]))
  }

  // ---------------------------------------------------------------------
  // Lemmas about Concat, Flatten and Join
  // ---------------------------------------------------------------------

  lemma {:induction false} AppendAssoc(a: string, b: string, c: string)
    ensures a + (b + c) == (a + b) + c
  {
  }

  lemma {:induction false} ConcatSingle(s: string)
    ensures Concat([s]) == s
  {
    assert [s][..0] == [];
  }

  /** Concatenation distributes over appending lists of strings. */
  lemma {:induction false} ConcatAppend(a: seq<string>, b: seq<string>)
    ensures Concat(a + b) == Concat(a) + Concat(b)
    decreases |b|
  {
    if b == [] {
      assert a + b == a;
    } else {
      var init, last := b[..|b| - 1], b[|b| - 1];
      assert (a + b)[..|a + b| - 1] == a + init;
      assert (a + b)[|a + b| - 1] == last;
      ConcatAppend(a, init);
      AppendAssoc(Concat(a), Concat(init), last);
    }
  }

  /** Flattening a list that starts with `g` starts with `g`'s words. */
  lemma {:induction false} FlattenCons(g: seq<string>, rest: seq<seq<string>>)
    ensures Flatten([g] + rest) == g + Flatten(rest)
    decreases |rest|
  {
    if rest == [] {
      assert [g] + rest == [g] && [g][..0] == [];
    } else {
      var init := rest[..|rest| - 1];
      assert ([g] + rest)[..|rest|] == [g] + init;
      FlattenCons(g, init);
    }
  }

  /** Joining one more string at the end adds the separator and it. */
  lemma {:induction false} JoinSnoc(ws: seq<string>, w: string, sep: string)
    requires ws != []
    ensures Join(ws + [w], sep) == Join(ws, sep) + sep + w
  {
    if |ws| == 1 {
      assert (ws + [w])[1..] == [w];
    } else {
      assert (ws + [w])[1..] == ws[1..] + [w];
      JoinSnoc(ws[1..], w, sep);
    }
  }

  /** A space-joined non-empty list of words is non-empty and neither starts
      nor ends with whitespace. */
  lemma {:induction false} JoinSpaceOfWords(ws: seq<string>)
    requires ws != [] && forall i :: 0 <= i < |ws| ==> IsWord(ws[i])
    ensures Trimmed(JoinSpace(ws))
  {
    if |ws| > 1 {
      JoinSpaceOfWords(ws[1..]);
      assert JoinSpace(ws) == ws[0] + (" " + JoinSpace(ws[1..]));
    }
  }

  // ---------------------------------------------------------------------
  // Lemmas about Split, SplitMax and Join
  // ---------------------------------------------------------------------

  lemma {:induction false} WordLengthNoSpace(s: string)
    ensures NoSpace(s[..WordLength(s)])
    ensures WordLength(s) < |s| ==> IsSpace(s[WordLength(s)])
  {
    if s != [] && !IsSpace(s[0]) {
      WordLengthNoSpace(s[1..]);
      assert s[..WordLength(s)] == [s[0]] + s[1..][..WordLength(s[1..])];
    }
  }

  lemma {:induction false} WordLengthOfWord(w: string, rest: string)
    requires NoSpace(w)
    requires rest == [] || IsSpace(rest[0])
    ensures WordLength(w + rest) == |w|
  {
    if w != [] {
      assert (w + rest)[1..] == w[1..] + rest;
      WordLengthOfWord(w[1..], rest);
    } else {
      assert w + rest == rest;
    }
  }

  /** Every part of `s.split()` is a word. */
  lemma {:induction false} SplitWords(s: string)
    ensures forall i :: 0 <= i < |Split(s)| ==> IsWord(Split(s)[i])
    decreases |s|
  {
    if s == [] {
    } else if IsSpace(s[0]) {
      SplitWords(s[1..]);
    } else {
      WordLengthNoSpace(s);
      SplitWords(s[WordLength(s)..]);
    }
  }

  lemma {:induction false} SpaceIsSpace()
    ensures IsSpace(' ') && IsSpace('\n')
  {
  }

  /** Leading whitespace does not change the words. */
  lemma {:induction false} SplitSpacePrefix(sp: string, s: string)
    requires AllSpace(sp)
    ensures Split(sp + s) == Split(s)
  {
    if sp == [] {
      assert sp + s == s;
    } else {
      assert (sp + s)[1..] == sp[1..] + s;
      SplitSpacePrefix(sp[1..], s);
    }
  }

  /** `s.split()` is empty exactly when `s` is blank (`s.strip() == ""`). */
  lemma {:induction false} SplitEmptyIffBlank(s: string)
    ensures Split(s) == [] <==> AllSpace(s)
  {
    if s != [] && IsSpace(s[0]) {
      SplitEmptyIffBlank(s[1..]);
      assert AllSpace(s) <==> AllSpace(s[1..]) by {
        if AllSpace(s[1..]) {
          forall i | 0 <= i < |s| ensures IsSpace(s[i]) {
            if i > 0 { assert s[i] == s[1..][i - 1]; }
          }
        }
      }
    }
  }

  /** Splitting a space-joined list of words gives the words back. */
  lemma {:induction false} SplitJoinSpace(ws: seq<string>)
    requires forall i :: 0 <= i < |ws| ==> IsWord(ws[i])
    ensures Split(JoinSpace(ws)) == ws
  {
    if ws == [] {
    } else if |ws| == 1 {
      var w := ws[0];
      assert w == w + [];
      WordLengthOfWord(w, []);
    } else {
      var w, rest := ws[0], JoinSpace(ws[1..]);
      var s := w + (" " + rest);
      assert JoinSpace(ws) == s;
      SpaceIsSpace();
      WordLengthOfWord(w, " " + rest);
      assert s[..|w|] == w;
      assert s[|w|..] == " " + rest;
      assert (" " + rest)[1..] == rest;
      SplitJoinSpace(ws[1..]);
    }
  }

  /** Splitting distributes over a concatenation whose seam is whitespace. */
  lemma {:induction false} SplitAppend(a: string, b: string)
    requires a == [] || IsSpace(a[|a| - 1]) || b == [] || IsSpace(b[0])
    ensures Split(a + b) == Split(a) + Split(b)
    decreases |a|
  {
    if a == [] {
      assert a + b == b;
    } else if IsSpace(a[0]) {
      SplitAppend(a[1..], b);
      SplitAppendSpace(a, b);
    } else {
      var n := WordLength(a);
      assert a[n..] == [] || a[n..][|a[n..]| - 1] == a[|a| - 1];
      SplitAppend(a[n..], b);
      SplitAppendWord(a, b);
    }
  }

  /** The step of `SplitAppend` past a leading whitespace character. */
  lemma {:induction false} SplitAppendSpace(a: string, b: string)
    requires a != [] && IsSpace(a[0])
    requires Split(a[1..] + b) == Split(a[1..]) + Split(b)
    ensures Split(a + b) == Split(a) + Split(b)
  {
    assert (a + b)[0] == a[0] && (a + b)[1..] == a[1..] + b;
  }

  /** The step of `SplitAppend` past a leading word. */
  lemma {:induction false} SplitAppendWord(a: string, b: string)
    requires a != [] && !IsSpace(a[0])
    requires IsSpace(a[|a| - 1]) || b == [] || IsSpace(b[0])
    requires Split(a[WordLength(a)..] + b) == Split(a[WordLength(a)..]) + Split(b)
    ensures Split(a + b) == Split(a) + Split(b)
  {
    var n := WordLength(a);
    WordAtFront(a, b);
    calc {
      Split(a + b);
      [a[..n]] + Split(a[n..] + b);
      [a[..n]] + (Split(a[n..]) + Split(b));
      ([a[..n]] + Split(a[n..])) + Split(b);
    }
  }

  /** The first word of `a` is also the first word of `a + b` when the
      seam is whitespace. */
  lemma {:induction false} WordAtFront(a: string, b: string)
    requires a != [] && !IsSpace(a[0])
    requires IsSpace(a[|a| - 1]) || b == [] || IsSpace(b[0])
    ensures var n := WordLength(a);
      && (a + b)[0] == a[0]
      && WordLength(a + b) == n
      && (a + b)[..n] == a[..n]
      && (a + b)[n..] == a[n..] + b
  {
    var n := WordLength(a);
    WordLengthNoSpace(a);
    if n < |a| {
      assert a + b == a[..n] + (a[n..] + b);
      WordLengthOfWord(a[..n], a[n..] + b);
    } else {
      assert a[..n] == a;
      WordLengthOfWord(a, b);
    }
  }

  /** Splitting a concatenation of strings that each end in whitespace
      concatenates their words. */
  lemma {:induction false} SplitConcat(ss: seq<string>)
    requires forall i :: 0 <= i < |ss| ==> ss[i] != [] && IsSpace(ss[i][|ss[i]| - 1])
    ensures Split(Concat(ss)) == Flatten(SplitEach(ss))
  {
    if ss != [] {
      var init, last := ss[..|ss| - 1], ss[|ss| - 1];
      SplitConcat(init);
      SplitAppend(Concat(init), last);
      assert SplitEach(ss)[..|ss| - 1] == SplitEach(init);
    }
  }

  /** `s.split(maxsplit=k)` has as many parts as `s.split()`, up to k + 1. */
  lemma {:induction false} SplitMaxLength(s: string, k: nat)
    ensures |SplitMax(s, k)| == if |Split(s)| <= k then |Split(s)| else k + 1
    decreases |s|
  {
    if s == [] {
    } else if IsSpace(s[0]) {
      SplitMaxLength(s[1..], k);
    } else if k > 0 {
      SplitMaxLength(s[WordLength(s)..], k - 1);
    }
  }

  /** `s.split(maxsplit=k)` agrees with `s.split()` on every part before the
      k-th. */
  lemma {:induction false} SplitMaxAgrees(s: string, k: nat, i: nat)
    requires i < k && i < |SplitMax(s, k)|
    ensures i < |Split(s)| && SplitMax(s, k)[i] == Split(s)[i]
    decreases |s|
  {
    if IsSpace(s[0]) {
      SplitMaxAgrees(s[1..], k, i);
    } else if i > 0 {
      SplitMaxAgrees(s[WordLength(s)..], k - 1, i - 1);
    }
  }

  /** When `s` has more than `k` words, the last part of
      `s.split(maxsplit=k)` is the remainder of `s` whose words are the words
      of `s` after the k-th. */
  lemma {:induction false} SplitMaxRemainder(s: string, k: nat)
    requires |Split(s)| > k
    ensures |SplitMax(s, k)| == k + 1
    ensures Split(SplitMax(s, k)[k]) == Split(s)[k..]
    decreases |s|
  {
    SplitMaxLength(s, k);
    if IsSpace(s[0]) {
      SplitMaxRemainder(s[1..], k);
    } else if k > 0 {
      SplitMaxRemainder(s[WordLength(s)..], k - 1);
    }
  }
}
