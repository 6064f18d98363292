/**
 * String operations the core performs through JavaScript built-ins, written
 * out: the whitespace class shared by `\s` and `String.prototype.trim`,
 * `trim` itself, the regular-expression word class `\w`, a first-index
 * search, and `Array.prototype.join(" ")` with its inverse `split(" ")`.
 */
module Text {
  import opened Js

  /** ECMAScript WhiteSpace and LineTerminator code points (what `\s` matches
      and what `trim` removes). */
  predicate IsWhitespace(c: char) {
    || c == '\t' || c == '\n' || c == '\U{000B}' || c == '\U{000C}' || c == '\r'
    || c == ' ' || c == '\U{00A0}' || c == '\U{1680}'
    || ('\U{2000}' <= c <= '\U{200A}')
    || c == '\U{2028}' || c == '\U{2029}' || c == '\U{202F}' || c == '\U{205F}'
    || c == '\U{3000}' || c == '\U{FEFF}'
  }

  predicate AllWhitespace(s: string) {
    forall i :: 0 <= i < |s| ==> IsWhitespace(s[i])
  }

  /** Number of whitespace characters at the start of `s`. */
  function LeadingWhitespace(s: string): (k: nat)
    ensures k <= |s|
    ensures forall i :: 0 <= i < k ==> IsWhitespace(s[i])
    ensures k < |s| ==> !IsWhitespace(s[k])
  {
    if |s| > 0 && IsWhitespace(s[0]) then 1 + LeadingWhitespace(s[1..]) else 0
  }

  /** Number of whitespace characters at the end of `s`. */
  function TrailingWhitespace(s: string): (k: nat)
    ensures k <= |s|
    ensures forall i :: |s| - k <= i < |s| ==> IsWhitespace(s[i])
    ensures k < |s| ==> !IsWhitespace(s[|s| - 1 - k])
  {
    if |s| > 0 && IsWhitespace(s[|s| - 1]) then 1 + TrailingWhitespace(s[..|s| - 1]) else 0
  }

  /** `s.trim()`: the slice of `s` left after removing leading and trailing
      whitespace. It is empty exactly when `s` is all whitespace; otherwise it
      starts and ends with a non-whitespace character. */
  function Trim(s: string): (r: string)
    ensures LeadingWhitespace(s) + |r| <= |s|
    ensures r == s[LeadingWhitespace(s)..LeadingWhitespace(s) + |r|]
    ensures forall i :: LeadingWhitespace(s) + |r| <= i < |s| ==> IsWhitespace(s[i])
    ensures r == [] <==> AllWhitespace(s)
    ensures r != [] ==> !IsWhitespace(r[0]) && !IsWhitespace(r[|r| - 1])
  {
    var start := LeadingWhitespace(s);
    var rest := s[start..];
    var r := rest[..|rest| - TrailingWhitespace(rest)];
    assert r == s[start..start + |r|];
    assert forall i :: start + |r| <= i < |s| ==> s[i] == rest[i - start];
    r
  }

  /** `!s.trim()`: the string is empty or whitespace only. */
  predicate IsBlank(s: string) {
    Trim(s) == []
  }

  lemma BlankIffAllWhitespace(s: string)
    ensures IsBlank(s) <==> AllWhitespace(s)
  {
  }

  /** The regular-expression class `\w` (without the `u` flag): ASCII letters,
      digits and `_`. */
  predicate IsWordChar(c: char) {
    ('a' <= c <= 'z') || ('A' <= c <= 'Z') || ('0' <= c <= '9') || c == '_'
  }

  /** Length of the longest run of word characters starting at `i`: what the
      greedy `(\w+)` consumes there. */
  function WordRun(s: string, i: nat): (k: nat)
    requires i <= |s|
    ensures i + k <= |s|
    ensures forall j :: i <= j < i + k ==> IsWordChar(s[j])
    ensures i + k < |s| ==> !IsWordChar(s[i + k])
    decreases |s| - i
  {
    if i < |s| && IsWordChar(s[i]) then 1 + WordRun(s, i + 1) else 0
  }

  /** Any run of word characters that ends at a non-word character or at the
      end of the text is the one `WordRun` measures. */
  lemma WordRunIsMaximal(s: string, i: nat, k: nat)
    requires i + k <= |s|
    requires forall j :: i <= j < i + k ==> IsWordChar(s[j])
    requires i + k < |s| ==> !IsWordChar(s[i + k])
    ensures WordRun(s, i) == k
  {
  }

  /** `s.indexOf(c)`, with `None` for -1. */
  function IndexOf(s: string, c: char): (r: Option<nat>)
    ensures r.Some? ==> r.value < |s| && s[r.value] == c
    ensures r.Some? ==> forall i :: 0 <= i < r.value ==> s[i] != c
    ensures r.None? <==> c !in s
  {
    if |s| == 0 then None
    else if s[0] == c then Some(0)
    else match IndexOf(s[1..], c)
      case None => None
      case Some(i) => Some(i + 1)
  }

  /** `parts.join(" ")`: no parts give the empty text, and the text starts
      with the first part. */
  function Join(parts: seq<string>): (r: string)
    ensures |parts| == 0 ==> r == ""
    ensures |parts| > 0 ==> parts[0] <= r
  {
    if |parts| == 0 then ""
    else if |parts| == 1 then parts[0]
    else parts[0] + " " + Join(parts[1..])
  }

  /** `s.split(" ")` */
  function Split(s: string): (parts: seq<string>)
    ensures |parts| > 0
    decreases |s|
  {
    match IndexOf(s, ' ')
    case None => [s]
    case Some(k) => [s[..k]] + Split(s[k + 1..])
  }

  /** Splitting at a first space that follows a space-free head. */
  lemma SplitAfterHead(head: string, rest: string)
    requires ' ' !in head
    ensures Split(head + " " + rest) == [head] + Split(rest)
  {
    var line := head + " " + rest;
    assert line[|head|] == ' ';
    assert forall i :: 0 <= i < |head| ==> line[i] == head[i];
    assert IndexOf(line, ' ') == Some(|head|);
    assert line[..|head|] == head;
    assert line[|head| + 1..] == rest;
  }

  /** A joined line can be split back into its parts when no part holds a
      space: joining keeps every part and every boundary. */
  lemma {:induction false} SplitJoin(parts: seq<string>)
    requires |parts| > 0
    requires forall i :: 0 <= i < |parts| ==> ' ' !in parts[i]
    ensures Split(Join(parts)) == parts
  {
    if |parts| > 1 {
      SplitAfterHead(parts[0], Join(parts[1..]));
      SplitJoin(parts[1..]);
    }
  }

  lemma DropHead(a: string, b: string)
    ensures (a + b)[|a|..] == b
  {
  }

  /** The first `|a| + n` elements of `a + b` are `a` and the first `n` of `b`. */
  lemma HeadOfConcat(a: string, b: string, n: nat)
    requires n <= |b|
    ensures (a + b)[..|a| + n] == a + b[..n]
  {
  }

  lemma SliceOfSuffix(s: string, p: nat, n: nat)
    requires p + n <= |s|
    ensures s[p..p + n] == s[p..][..n]
  {
  }

  /** Length of the run of word characters that ends `s`. */
  function TrailingWordRun(s: string): (k: nat)
    ensures k <= |s|
    ensures forall i :: |s| - k <= i < |s| ==> IsWordChar(s[i])
    ensures k < |s| ==> !IsWordChar(s[|s| - 1 - k])
  {
    if |s| > 0 && IsWordChar(s[|s| - 1]) then 1 + TrailingWordRun(s[..|s| - 1]) else 0
  }

  /** A run of `n` word characters at the end of `s`, preceded by a non-word
      character, is the trailing word run. */
  lemma TrailingWordRunIs(s: string, n: nat)
    requires n < |s| && !IsWordChar(s[|s| - 1 - n])
    requires forall i :: |s| - n <= i < |s| ==> IsWordChar(s[i])
    ensures TrailingWordRun(s) == n
  {
  }

  /** A word that follows a separator ending in a non-word character is the
      trailing word run of the whole text. */
  lemma WordAfterSeparator(t: string, sep: string, word: string)
    requires |sep| > 0 && !IsWordChar(sep[|sep| - 1])
    requires forall i :: 0 <= i < |word| ==> IsWordChar(word[i])
    ensures TrailingWordRun(t + sep + word) == |word|
  {
    var head := t + sep;
    var s := head + word;
    assert head[|head| - 1] == sep[|sep| - 1];
    assert s[|s| - 1 - |word|] == head[|head| - 1];
    assert forall i :: |s| - |word| <= i < |s| ==> s[i] == word[i - |head|];
    TrailingWordRunIs(s, |word|);
  }

  /** Equal texts that share a prefix and a suffix agree in between. */
  lemma Unframe(pre: string, a: string, b: string, post: string)
    requires pre + a + post == pre + b + post
    ensures a == b
  {
    var whole := pre + a + post;
    assert a == whole[|pre|..|whole| - |post|];
  }

  /** Text and word can be read back from `text + sep + word` when the
      separator ends in a non-word character. */
  lemma SplitBeforeWord(sep: string, t1: string, w1: string, t2: string, w2: string)
    requires |sep| > 0 && !IsWordChar(sep[|sep| - 1])
    requires forall i :: 0 <= i < |w1| ==> IsWordChar(w1[i])
    requires forall i :: 0 <= i < |w2| ==> IsWordChar(w2[i])
    requires t1 + sep + w1 == t2 + sep + w2
    ensures t1 == t2 && w1 == w2
  {
    WordAfterSeparator(t1, sep, w1);
    WordAfterSeparator(t2, sep, w2);
    var a := t1 + sep + w1;
    assert w1 == a[|a| - |w1|..];
    assert t1 == a[..|t1|];
  }

  /** The same inside a fixed frame: `pre + text + sep + word + post`. */
  lemma FramedWordInjective(pre: string, sep: string, post: string,
                            t1: string, w1: string, t2: string, w2: string)
    requires |sep| > 0 && !IsWordChar(sep[|sep| - 1])
    requires forall i :: 0 <= i < |w1| ==> IsWordChar(w1[i])
    requires forall i :: 0 <= i < |w2| ==> IsWordChar(w2[i])
    requires pre + t1 + sep + w1 + post == pre + t2 + sep + w2 + post
    ensures t1 == t2 && w1 == w2
  {
    assert pre + t1 + sep + w1 + post == pre + (t1 + sep + w1) + post;
    assert pre + t2 + sep + w2 + post == pre + (t2 + sep + w2) + post;
    Unframe(pre, t1 + sep + w1, t2 + sep + w2, post);
    SplitBeforeWord(sep, t1, w1, t2, w2);
  }
}
