// String primitives of the Go standard library that the modelled code calls,
// restricted to ASCII text.
module Text {

  ghost predicate OccursAt(s: string, part: string, i: int) {
    0 <= i <= |s| - |part| && s[i..i + |part|] == part
  }

  /** strings.Contains */
  ghost predicate Contains(s: string, part: string) {
    exists i :: OccursAt(s, part, i)
  }

  /** The same test by scanning, for executable code. */
  predicate HasPart(s: string, part: string) {
    if |s| < |part| then false
    else if s[..|part|] == part then true
    else if s == "" then false
    else HasPart(s[1..], part)
  }

  lemma OccursLater(s: string, part: string)
    requires |part| <= |s| && s[..|part|] != part
    ensures Contains(s, part) <==> Contains(s[1..], part)
  {
    assert !OccursAt(s, part, 0);
    forall i: int ensures OccursAt(s, part, i + 1) <==> i >= 0 && OccursAt(s[1..], part, i) {
      if 0 <= i && i + 1 + |part| <= |s| {
        assert s[1..][i..i + |part|] == s[i + 1..i + 1 + |part|];
      }
    }
    if Contains(s, part) {
      forall i | OccursAt(s, part, i) ensures OccursAt(s[1..], part, i - 1) {
        assert OccursAt(s, part, (i - 1) + 1);
      }
    }
  }

  lemma {:induction false} HasPartIsContains(s: string, part: string)
    ensures HasPart(s, part) <==> Contains(s, part)
  {
    if |s| < |part| {
    } else if s[..|part|] == part {
      assert OccursAt(s, part, 0);
    } else if s != "" {
      HasPartIsContains(s[1..], part);
      OccursLater(s, part);
    }
  }

  /** strings.HasPrefix */
  predicate HasPrefix(s: string, p: string) {
    p <= s
  }

  /** A text begins with a prefix exactly if it goes on from it, and so with itself. */
  lemma PrefixGoesOn(s: string, p: string)
    ensures HasPrefix(s, p) <==> exists rest :: s == p + rest
    ensures HasPrefix(s, s)
  {
    if HasPrefix(s, p) { assert s == p + s[|p|..]; }
  }

  /** strings.LastIndexByte: the last position of a character, or -1. */
  function LastIndex(s: string, c: char): (i: int)
    ensures -1 <= i < |s|
    ensures 0 <= i ==> s[i] == c
    ensures forall j :: i < j < |s| ==> s[j] != c
  {
    if s == [] then -1
    else if s[|s| - 1] == c then |s| - 1
    else LastIndex(s[..|s| - 1], c)
  }

  /** strings.IndexByte: the first position of a character, or -1. */
  function Index(s: string, c: char): (i: int)
    ensures -1 <= i < |s|
    ensures 0 <= i ==> s[i] == c && forall j :: 0 <= j < i ==> s[j] != c
    ensures i < 0 ==> c !in s
  {
    if s == [] then -1
    else if s[0] == c then 0
    else
      var rest := Index(s[1..], c);
      if rest < 0 then -1 else rest + 1
  }

  /** strings.Split on a single character; never empty. */
  function Split(s: string, sep: char): (parts: seq<string>)
    ensures |parts| >= 1
    ensures forall p :: p in parts ==> sep !in p
    decreases |s|
  {
    var i := Index(s, sep);
    if i < 0 then [s] else [s[..i]] + Split(s[i + 1..], sep)
  }

  /** strings.Join */
  function Join(parts: seq<string>, sep: char): string
    requires |parts| >= 1
  {
    if |parts| == 1 then parts[0] else parts[0] + [sep] + Join(parts[1..], sep)
  }

  lemma JoinMore(head: string, rest: seq<string>, sep: char)
    requires |rest| >= 1
    ensures Join([head] + rest, sep) == head + [sep] + Join(rest, sep)
  {
    assert ([head] + rest)[1..] == rest;
  }

  /** Joining undoes splitting. */
  lemma {:induction false} JoinSplit(s: string, sep: char)
    ensures Join(Split(s, sep), sep) == s
    decreases |s|
  {
    var i := Index(s, sep);
    if i >= 0 {
      JoinSplit(s[i + 1..], sep);
      JoinMore(s[..i], Split(s[i + 1..], sep), sep);
      assert s == s[..i] + [sep] + s[i + 1..];
    }
  }

  lemma SplitAtFirst(head: string, sep: char, tail: string)
    requires sep !in head
    ensures Split(head + [sep] + tail, sep) == [head] + Split(tail, sep)
  {
    var s := head + [sep] + tail;
    assert s[|head|] == sep;
    assert forall j :: 0 <= j < |head| ==> s[j] == head[j];
    var i := Index(s, sep);
    assert i == |head|;
    assert s[..i] == head && s[i + 1..] == tail;
  }

  /** Splitting undoes joining: no separator is lost, added or moved. */
  lemma {:induction false} SplitJoin(parts: seq<string>, sep: char)
    requires |parts| >= 1
    requires forall p :: p in parts ==> sep !in p
    ensures Split(Join(parts, sep), sep) == parts
  {
    assert parts[0] in parts;
    if |parts| == 1 {
      assert Index(parts[0], sep) < 0;
      assert parts == [parts[0]];
    } else {
      SplitJoin(parts[1..], sep);
      SplitAtFirst(parts[0], sep, Join(parts[1..], sep));
      assert parts == [parts[0]] + parts[1..];
      JoinMore(parts[0], parts[1..], sep);
    }
  }

  predicate IsDigit(c: char) {
    '0' <= c <= '9'
  }

  predicate AllDigits(s: string) {
    forall i :: 0 <= i < |s| ==> IsDigit(s[i])
  }

  function DigitValue(c: char): nat
    requires IsDigit(c)
  {
    c as int - '0' as int
  }

  /** Decimal numeral of a natural number, as %d and %v print it. */
  function Decimal(n: nat): (s: string)
    ensures |s| >= 1 && AllDigits(s)
    ensures s[0] == '0' ==> n == 0
    decreases n
  {
    var digit := ['0' + (n % 10) as char];
    if n < 10 then digit else Decimal(n / 10) + digit
  }

  function Lower(c: char): char {
    if 'A' <= c <= 'Z' then 'a' + (c - 'A') else c
  }

  function Upper(c: char): char {
    if 'a' <= c <= 'z' then 'A' + (c - 'a') else c
  }

  /** strings.ToLower */
  function ToLower(s: string): (r: string)
    ensures |r| == |s| && forall i :: 0 <= i < |s| ==> r[i] == Lower(s[i])
  {
    seq(|s|, i requires 0 <= i < |s| => Lower(s[i]))
  }

  /** The separators of strings.Title: ASCII letters, digits and underscore are not. */
  predicate IsSeparator(c: char) {
    !('a' <= c <= 'z' || 'A' <= c <= 'Z' || IsDigit(c) || c == '_')
  }

  predicate StartsWord(s: string, i: nat)
    requires i < |s|
  {
    i == 0 || IsSeparator(s[i - 1])
  }

  /** strings.Title: the first letter of every word in upper case, the rest as it is. */
  function Title(s: string): (r: string)
    ensures |r| == |s|
    ensures forall i :: 0 <= i < |s| ==> r[i] == if StartsWord(s, i) then Upper(s[i]) else s[i]
  {
    seq(|s|, i requires 0 <= i < |s| => if StartsWord(s, i) then Upper(s[i]) else s[i])
  }

  /** Upper case appears, if at all, at the start of words only. */
  predicate PlainWords(s: string) {
    forall i :: 0 <= i < |s| && !StartsWord(s, i) ==> s[i] == Lower(s[i])
  }

  predicate IsLower(s: string) {
    forall i :: 0 <= i < |s| ==> s[i] == Lower(s[i])
  }

  lemma CaseLaws(c: char)
    ensures Lower(Upper(c)) == Lower(c) && Upper(Lower(c)) == Upper(c) && Lower(Lower(c)) == Lower(c)
    ensures IsSeparator(Lower(c)) == IsSeparator(c)
    ensures Upper(c) == c || Lower(c) == c
  {
  }

  lemma LoweredIsLower(s: string)
    ensures IsLower(ToLower(s))
  {
    forall i | 0 <= i < |s| ensures ToLower(s)[i] == Lower(ToLower(s)[i]) {
      CaseLaws(s[i]);
    }
  }

  lemma LoweredTitleAt(s: string, i: nat)
    requires i < |s|
    ensures ToLower(Title(s))[i] == Lower(s[i])
  {
    var t := Title(s);
    assert ToLower(t)[i] == Lower(t[i]);
    CaseLaws(s[i]);
  }

  lemma TitledAt(s: string, i: nat)
    requires i < |s|
    ensures ToLower(Title(s))[i] == Lower(s[i])
    ensures StartsWord(ToLower(Title(s)), i) == StartsWord(s, i)
  {
    LoweredTitleAt(s, i);
    if i > 0 {
      LoweredTitleAt(s, i - 1);
      CaseLaws(s[i - 1]);
    }
  }

  /** Reading a titled name back in lower case returns the name exactly when it was lower case. */
  lemma LowerOfTitle(s: string)
    ensures ToLower(Title(s)) == s <==> IsLower(s)
  {
    forall i | 0 <= i < |s| ensures ToLower(Title(s))[i] == Lower(s[i]) {
      TitledAt(s, i);
    }
  }

  /** Titling again what was titled and lowered changes nothing exactly for plain words. */
  lemma TitleOfLowerOfTitle(s: string)
    ensures Title(ToLower(Title(s))) == Title(s) <==> PlainWords(s)
  {
    var l := ToLower(Title(s));
    forall i | 0 <= i < |s|
      ensures Title(l)[i] == if StartsWord(s, i) then Upper(s[i]) else Lower(s[i])
    {
      TitledAt(s, i);
      CaseLaws(s[i]);
    }
    if Title(l) == Title(s) {
      forall i | 0 <= i < |s| && !StartsWord(s, i) ensures s[i] == Lower(s[i]) {
        assert Title(l)[i] == Title(s)[i];
      }
    }
  }

  /** Words begin after anything but a letter, a digit or an underscore. */
  lemma TitleOfWords()
    ensures Title("a-b e_f g1h") == "A-B E_f G1h"
  {
  }
}
