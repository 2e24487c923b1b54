/** String helpers. Characters are bytes. */
module Strings {
  import opened Options

  type Byte = n: nat | n < 256
  type Text = seq<Byte>

  const SINGLE: Byte := 39
  const DOUBLE: Byte := 34
  const BACKTICK: Byte := 96

  predicate IsQuote(c: Byte) {
    c == SINGLE || c == DOUBLE || c == BACKTICK
  }

  // ------------------------------------------------------- splitQuoted

  /** Between two characters: the tokens so far, the token being read, and the open quote (0 for none). */
  datatype Scan = Scan(result: seq<Text>, current: Text, inQuotes: bool, quoteChar: Byte)

  const BEGIN := Scan([], [], false, 0)

  function Feed(s: Scan, c: Byte, delimiter: Byte): Scan {
    if !s.inQuotes then
      if IsQuote(c) then s.(inQuotes := true, quoteChar := c)
      else if c == delimiter then
        if s.current == [] then s else s.(result := s.result + [s.current], current := [])
      else s.(current := s.current + [c])
    else if c == s.quoteChar then s.(inQuotes := false, quoteChar := 0)
    else s.(current := s.current + [c])
  }

  function FeedAll(s: Scan, str: Text, delimiter: Byte): Scan
    decreases |str|
  {
    if str == [] then s else FeedAll(Feed(s, str[0], delimiter), str[1..], delimiter)
  }

  function Tokens(s: Scan): seq<Text> {
    if s.current == [] then s.result else s.result + [s.current]
  }

  lemma {:induction false} FeedConcat(s: Scan, a: Text, b: Text, delimiter: Byte)
    ensures FeedAll(s, a + b, delimiter) == FeedAll(FeedAll(s, a, delimiter), b, delimiter)
    decreases |a|
  {
    if a == [] {
      assert a + b == b;
    } else {
      assert (a + b)[1..] == a[1..] + b;
      FeedConcat(Feed(s, a[0], delimiter), a[1..], b, delimiter);
    }
  }

  lemma FeedMore(s: Scan, str: Text, c: Byte, delimiter: Byte)
    ensures FeedAll(s, str + [c], delimiter) == Feed(FeedAll(s, str, delimiter), c, delimiter)
  {
    FeedConcat(s, str, [c], delimiter);
  }

  /** Part of a word: bare, wrapped in a quote, or open: in a quote that is never closed. */
  datatype Piece = Bare(text: Text) | Wrapped(text: Text, quote: Byte) | Open(text: Text, quote: Byte) {
    predicate Ok(delimiter: Byte) {
      match this
      case Bare(t) => forall k :: 0 <= k < |t| ==> !IsQuote(t[k]) && t[k] != delimiter
      case Wrapped(t, q) => IsQuote(q) && q !in t
      case Open(t, q) => IsQuote(q) && q !in t
    }

    function Written(): Text {
      match this
      case Bare(t) => t
      case Wrapped(t, q) => [q] + t + [q]
      case Open(t, q) => [q] + t
    }
  }

  type Word = seq<Piece>

  function Spelling(word: Word): Text {
    if word == [] then [] else Spelling(word[..|word| - 1]) + word[|word| - 1].Written()
  }

  /** What a word means: its pieces without their quotes. */
  function Meaning(word: Word): Text {
    if word == [] then [] else Meaning(word[..|word| - 1]) + word[|word| - 1].text
  }

  /** Words joined by one delimiter. An empty word stands for a further delimiter, so the words
      may have any number of delimiters before, between and after them. */
  function Line(words: seq<Word>, delimiter: Byte): Text {
    if words == [] then []
    else if |words| == 1 then Spelling(words[0])
    else Line(words[..|words| - 1], delimiter) + [delimiter] + Spelling(words[|words| - 1])
  }

  /** The meanings of the words, in order, without those that are empty. */
  function Arguments(words: seq<Word>): seq<Text> {
    if words == [] then []
    else
      var last := Meaning(words[|words| - 1]);
      Arguments(words[..|words| - 1]) + if last == [] then [] else [last]
  }

  predicate Closed(word: Word, delimiter: Byte) {
    forall k :: 0 <= k < |word| ==> word[k].Ok(delimiter) && !word[k].Open?
  }

  predicate LastWordOk(word: Word, delimiter: Byte) {
    word == [] || (Closed(word[..|word| - 1], delimiter) && word[|word| - 1].Ok(delimiter))
  }

  /** Only the last piece of the last word may be open. A quote used as delimiter does not delimit. */
  predicate LineOk(words: seq<Word>, delimiter: Byte) {
    words != [] && (IsQuote(delimiter) ==> |words| == 1) &&
    (forall i :: 0 <= i < |words| - 1 ==> Closed(words[i], delimiter)) &&
    LastWordOk(words[|words| - 1], delimiter)
  }

  lemma {:induction false} FeedBare(s: Scan, t: Text, delimiter: Byte)
    requires !s.inQuotes && Bare(t).Ok(delimiter)
    ensures FeedAll(s, t, delimiter) == s.(current := s.current + t)
    decreases |t|
  {
    if t == [] {
      assert s.current + t == s.current;
    } else {
      assert s.current + t == (s.current + [t[0]]) + t[1..];
      FeedBare(Feed(s, t[0], delimiter), t[1..], delimiter);
    }
  }

  /** Inside quotes every other character is taken as it is. */
  lemma {:induction false} FeedInside(s: Scan, t: Text, delimiter: Byte)
    requires s.inQuotes && s.quoteChar !in t
    ensures FeedAll(s, t, delimiter) == s.(current := s.current + t)
    decreases |t|
  {
    if t == [] {
      assert s.current + t == s.current;
    } else {
      assert s.current + t == (s.current + [t[0]]) + t[1..];
      FeedInside(Feed(s, t[0], delimiter), t[1..], delimiter);
    }
  }

  lemma FeedOpen(s: Scan, t: Text, q: Byte, delimiter: Byte)
    requires IsQuote(q) && q !in t && !s.inQuotes
    ensures FeedAll(s, [q] + t, delimiter) == Scan(s.result, s.current + t, true, q)
  {
    FeedConcat(s, [q], t, delimiter);
    assert FeedAll(s, [q], delimiter) == Feed(s, q, delimiter);
    FeedInside(Feed(s, q, delimiter), t, delimiter);
  }

  lemma FeedPiece(s: Scan, p: Piece, delimiter: Byte)
    requires p.Ok(delimiter) && !s.inQuotes && s.quoteChar == 0
    ensures var u := FeedAll(s, p.Written(), delimiter);
      u.result == s.result && u.current == s.current + p.text && (!p.Open? ==> !u.inQuotes && u.quoteChar == 0)
  {
    if p.Bare? {
      FeedBare(s, p.text, delimiter);
    } else {
      FeedOpen(s, p.text, p.quote, delimiter);
      FeedMore(s, [p.quote] + p.text, p.quote, delimiter);
    }
  }

  lemma {:induction false} FeedWord(s: Scan, word: Word, delimiter: Byte)
    requires Closed(word, delimiter) && !s.inQuotes && s.quoteChar == 0 && s.current == []
    ensures FeedAll(s, Spelling(word), delimiter) == s.(current := Meaning(word))
    decreases |word|
  {
    if word != [] {
      var front, last := word[..|word| - 1], word[|word| - 1];
      FeedWord(s, front, delimiter);
      FeedConcat(s, Spelling(front), last.Written(), delimiter);
      FeedPiece(s.(current := Meaning(front)), last, delimiter);
    }
  }

  lemma FeedLastWord(s: Scan, word: Word, delimiter: Byte)
    requires LastWordOk(word, delimiter)
    requires !s.inQuotes && s.quoteChar == 0 && s.current == []
    ensures var u := FeedAll(s, Spelling(word), delimiter); u.result == s.result && u.current == Meaning(word)
  {
    if word != [] {
      var front, last := word[..|word| - 1], word[|word| - 1];
      FeedWord(s, front, delimiter);
      FeedConcat(s, Spelling(front), last.Written(), delimiter);
      FeedPiece(s.(current := Meaning(front)), last, delimiter);
    }
  }

  /** Closed words, with the delimiter after the last of them. */
  lemma {:induction false} FeedClosed(words: seq<Word>, delimiter: Byte)
    requires words != [] && !IsQuote(delimiter) && forall i :: 0 <= i < |words| ==> Closed(words[i], delimiter)
    ensures FeedAll(BEGIN, Line(words, delimiter) + [delimiter], delimiter) == BEGIN.(result := Arguments(words))
    decreases |words|
  {
    var front, last := words[..|words| - 1], words[|words| - 1];
    FeedMore(BEGIN, Line(words, delimiter), delimiter, delimiter);
    if front == [] {
      FeedWord(BEGIN, last, delimiter);
    } else {
      FeedClosed(front, delimiter);
      FeedConcat(BEGIN, Line(front, delimiter) + [delimiter], Spelling(last), delimiter);
      FeedWord(BEGIN.(result := Arguments(front)), last, delimiter);
    }
  }

  /** Whatever line is split, the result is the meaning of its words: quotes are removed, what
      they wrap is kept whatever it is, and runs of delimiters count as one. */
  lemma SplitQuotedRecovers(words: seq<Word>, delimiter: Byte)
    requires LineOk(words, delimiter)
    ensures Tokens(FeedAll(BEGIN, Line(words, delimiter), delimiter)) == Arguments(words)
  {
    var front, last := words[..|words| - 1], words[|words| - 1];
    if front == [] {
      FeedLastWord(BEGIN, last, delimiter);
    } else {
      FeedClosed(front, delimiter);
      FeedConcat(BEGIN, Line(front, delimiter) + [delimiter], Spelling(last), delimiter);
      FeedLastWord(BEGIN.(result := Arguments(front)), last, delimiter);
    }
  }

  /** The words with another last word. */
  lemma LineWithLast(words: seq<Word>, last: Word, delimiter: Byte)
    requires words != []
    ensures var us, n := words[..|words| - 1] + [last], |words| - 1;
      && us[..n] == words[..n] && us[n] == last
      && Line(us, delimiter) ==
           if n == 0 then Spelling(last) else Line(words[..n], delimiter) + [delimiter] + Spelling(last)
  {
    var us, n := words[..|words| - 1] + [last], |words| - 1;
    assert us[..n] == words[..n];
  }

  /** The word after one more character of it. */
  function Grown(word: Word, c: Byte): Word {
    if word != [] && word[|word| - 1].Open? then
      var p := word[|word| - 1];
      word[..|word| - 1] + [if c == p.quote then Wrapped(p.text, c) else Open(p.text + [c], p.quote)]
    else word + [if IsQuote(c) then Open([], c) else Bare([c])]
  }

  lemma GrownIs(word: Word, c: Byte)
    ensures Spelling(Grown(word, c)) == Spelling(word) + [c]
  {
    var g := Grown(word, c);
    if word != [] && word[|word| - 1].Open? {
      assert g[..|g| - 1] == word[..|word| - 1];
    } else {
      assert g[..|g| - 1] == word;
    }
  }

  predicate EndsOpen(word: Word) {
    word != [] && word[|word| - 1].Open?
  }

  lemma GrownOk(word: Word, c: Byte, delimiter: Byte)
    requires LastWordOk(word, delimiter) && (c != delimiter || IsQuote(c) || EndsOpen(word))
    ensures LastWordOk(Grown(word, c), delimiter)
  {
    var g := Grown(word, c);
    if EndsOpen(word) {
      assert g[..|g| - 1] == word[..|word| - 1];
    } else {
      assert g[..|g| - 1] == word;
      assert word != [] ==> word == word[..|word| - 1] + [word[|word| - 1]];
    }
  }

  lemma OkWithLast(words: seq<Word>, last: Word, delimiter: Byte)
    requires LineOk(words, delimiter) && LastWordOk(last, delimiter)
    ensures LineOk(words[..|words| - 1] + [last], delimiter)
  {}

  /** A character that extends the last word. */
  lemma LineGrows(words: seq<Word>, c: Byte, delimiter: Byte) returns (us: seq<Word>)
    requires LineOk(words, delimiter) && (c != delimiter || IsQuote(c) || EndsOpen(words[|words| - 1]))
    ensures LineOk(us, delimiter) && Line(us, delimiter) == Line(words, delimiter) + [c]
  {
    var n, last := |words| - 1, words[|words| - 1];
    var grown := Grown(last, c);
    us := words[..n] + [grown];
    GrownOk(last, c, delimiter);
    OkWithLast(words, grown, delimiter);
    LineWithLast(words, grown, delimiter);
    GrownIs(last, c);
    if n > 0 {
      assert Line(words, delimiter) == Line(words[..n], delimiter) + [delimiter] + Spelling(last);
      var front := Line(words[..n], delimiter) + [delimiter];
      assert front + (Spelling(last) + [c]) == (front + Spelling(last)) + [c];
    }
  }

  /** A delimiter outside quotes begins another word. */
  lemma LineBreaks(words: seq<Word>, delimiter: Byte)
    requires LineOk(words, delimiter) && !IsQuote(delimiter) && !EndsOpen(words[|words| - 1])
    ensures LineOk(words + [[]], delimiter) && Line(words + [[]], delimiter) == Line(words, delimiter) + [delimiter]
  {
    var us, last := words + [[]], words[|words| - 1];
    assert us[..|us| - 1] == words;
    assert last != [] ==> last == last[..|last| - 1] + [last[|last| - 1]];
  }

  lemma LineExtends(words: seq<Word>, c: Byte, delimiter: Byte) returns (us: seq<Word>)
    requires LineOk(words, delimiter)
    ensures LineOk(us, delimiter) && Line(us, delimiter) == Line(words, delimiter) + [c]
  {
    if c == delimiter && !EndsOpen(words[|words| - 1]) && !IsQuote(c) {
      LineBreaks(words, delimiter);
      us := words + [[]];
    } else {
      us := LineGrows(words, c, delimiter);
    }
  }

  /** Every string is such a line. */
  lemma {:induction false} EveryStringIsALine(str: Text, delimiter: Byte) returns (words: seq<Word>)
    ensures LineOk(words, delimiter) && Line(words, delimiter) == str
    decreases |str|
  {
    if str == [] {
      words := [[]];
    } else {
      var front, c := str[..|str| - 1], str[|str| - 1];
      assert str == front + [c];
      var us := EveryStringIsALine(front, delimiter);
      words := LineExtends(us, c, delimiter);
    }
  }

  /** The scanner; what it computes is said without it, for every string. */
  method SplitQuoted(str: Text, delimiter: Byte) returns (result: seq<Text>)
    ensures forall words :: LineOk(words, delimiter) && Line(words, delimiter) == str ==> result == Arguments(words)
  {
    result := [];
    var current: Text := [];
    var inQuotes := false;
    var quoteChar: Byte := 0;
    for i := 0 to |str|
      invariant var scan := Scan(result, current, inQuotes, quoteChar);
        FeedAll(scan, str[i..], delimiter) == FeedAll(BEGIN, str, delimiter)
    {
      var c := str[i];
      assert str[i..][1..] == str[i + 1..];
      if !inQuotes {
        if c == SINGLE || c == DOUBLE || c == BACKTICK {
          inQuotes := true;
          quoteChar := c;
        } else if c == delimiter {
          if current != [] {
            result := result + [current];
            current := [];
          }
        } else {
          current := current + [c];
        }
      } else {
        if c == quoteChar {
          inQuotes := false;
          quoteChar := 0;
        } else {
          current := current + [c];
        }
      }
    }
    if current != [] {
      result := result + [current];
    }
    assert result == Tokens(FeedAll(BEGIN, str, delimiter));
    forall words | LineOk(words, delimiter) && Line(words, delimiter) == str ensures result == Arguments(words) {
      SplitQuotedRecovers(words, delimiter);
    }
  }

  // ------------------------------------------------------- split

  predicate OccursAt(str: Text, sub: Text, k: nat) {
    k + |sub| <= |str| && str[k..k + |sub|] == sub
  }

  predicate Occurs(str: Text, sub: Text) {
    exists k :: 0 <= k <= |str| && OccursAt(str, sub, k)
  }

  /** `find`: the first place from `from` on where `sub` occurs. */
  function Find(str: Text, sub: Text, from: nat): (r: Option<nat>)
    ensures r.Some? ==> from <= r.value && OccursAt(str, sub, r.value)
    ensures forall k :: from <= k && (r.Some? ==> k < r.value) ==> !OccursAt(str, sub, k)
    decreases |str| + 1 - from
  {
    if from > |str| then None
    else if OccursAt(str, sub, from) then Some(from)
    else Find(str, sub, from + 1)
  }

  function Join(parts: seq<Text>, separator: Text): Text {
    if parts == [] then []
    else if |parts| == 1 then parts[0]
    else parts[0] + separator + Join(parts[1..], separator)
  }

  lemma {:induction false} JoinAppend(parts: seq<Text>, p: Text, separator: Text)
    requires parts != []
    ensures Join(parts + [p], separator) == Join(parts, separator) + separator + p
    decreases |parts|
  {
    if |parts| == 1 {
      assert (parts + [p])[1..] == [p];
    } else {
      assert (parts + [p])[1..] == parts[1..] + [p];
      JoinAppend(parts[1..], p, separator);
    }
  }

  /** A longer separator makes a longer text, once there is anything to separate. */
  lemma {:induction false} JoinLonger(parts: seq<Text>, a: Text, b: Text)
    requires |a| < |b|
    ensures |Join(parts, a)| <= |Join(parts, b)| && (|parts| > 1 ==> |Join(parts, a)| < |Join(parts, b)|)
    decreases |parts|
  {
    if |parts| > 1 {
      JoinLonger(parts[1..], a, b);
    }
  }

  /** One more part, up to the next delimiter or the end. */
  lemma JoinPart(parts: seq<Text>, str: Text, last: nat, next: nat, c: Byte)
    requires last <= next <= |str|
    requires if parts == [] then last == 0 else Join(parts, [c]) + [c] == str[..last]
    ensures Join(parts + [str[last..next]], [c]) == str[..next]
    ensures next < |str| && str[next] == c ==> str[..next] + [c] == str[..next + 1]
    ensures next == |str| ==> str[..next] == str
  {
    assert str[..next] == str[..last] + str[last..next];
    if parts != [] { JoinAppend(parts, str[last..next], [c]); }
  }

  lemma SliceOfSlice(s: Text, lo: nat, hi: nat, k: nat, n: nat)
    requires lo <= hi <= |s| && lo + k + n <= hi
    ensures s[lo..hi][k..k + n] == s[lo + k..lo + k + n]
  {
    var a, b := s[lo..hi][k..k + n], s[lo + k..lo + k + n];
    assert |a| == |b| && forall i :: 0 <= i < n ==> a[i] == s[lo + k + i] && b[i] == s[lo + k + i];
  }

  /** A stretch before the first occurrence has none inside. */
  lemma NotInside(str: Text, sub: Text, last: nat, next: nat)
    requires sub != [] && last <= next <= |str| && forall k :: last <= k < next ==> !OccursAt(str, sub, k)
    ensures !Occurs(str[last..next], sub)
  {
    var part := str[last..next];
    forall k | 0 <= k <= |part| ensures !OccursAt(part, sub, k) {
      if OccursAt(part, sub, k) {
        SliceOfSlice(str, last, next, k, |sub|);
        assert OccursAt(str, sub, last + k);
      }
    }
  }

  lemma OneCharacter(d: Text)
    requires |d| == 1
    ensures d == [d[0]]
  {}

  /** Whether joining the parts with the delimiter itself gives the string again. */
  lemma JoinedAgain(parts: seq<Text>, str: Text, delimiter: Text)
    requires delimiter != [] && parts != [] && Join(parts, [delimiter[0]]) == str
    requires |parts| == 1 <==> !Occurs(str, delimiter)
    ensures Join(parts, delimiter) == str <==> |delimiter| == 1 || !Occurs(str, delimiter)
  {
    if |delimiter| == 1 {
      OneCharacter(delimiter);
    } else if |parts| > 1 {
      JoinLonger(parts, [delimiter[0]], delimiter);
    }
  }

  /** The places below `end` where `sub` occurs, in order. */
  function Occurrences(str: Text, sub: Text, end: nat): seq<nat> {
    if end == 0 then []
    else Occurrences(str, sub, end - 1) + if OccursAt(str, sub, end - 1) then [end - 1] else []
  }

  lemma {:induction false} NoneBetween(str: Text, sub: Text, from: nat, end: nat)
    requires from <= end && forall k :: from <= k < end ==> !OccursAt(str, sub, k)
    ensures Occurrences(str, sub, end) == Occurrences(str, sub, from)
    decreases end - from
  {
    if from < end { NoneBetween(str, sub, from, end - 1); }
  }

  /** Where the parts end, but for the last one, when they are joined with `c`. */
  function Cuts(parts: seq<Text>, c: Byte): seq<nat> {
    if |parts| <= 1 then []
    else Cuts(parts[..|parts| - 1], c) + [|Join(parts[..|parts| - 1], [c])|]
  }

  lemma CutsAppend(parts: seq<Text>, p: Text, c: Byte)
    requires parts != []
    ensures Cuts(parts + [p], c) == Cuts(parts, c) + [|Join(parts, [c])|]
  {
    assert (parts + [p])[..|parts|] == parts;
  }

  /** With the next part, which ends where the delimiter is found. */
  lemma CutsPart(parts: seq<Text>, p: Text, str: Text, delimiter: Text, last: nat, next: nat, c: Byte)
    requires last <= next && forall k :: last <= k < next ==> !OccursAt(str, delimiter, k)
    requires if parts == [] then last == 0
             else |Join(parts, [c])| + 1 == last && Cuts(parts, c) + [last - 1] == Occurrences(str, delimiter, last)
    ensures Cuts(parts + [p], c) == Occurrences(str, delimiter, next)
  {
    NoneBetween(str, delimiter, last, next);
    if parts != [] { CutsAppend(parts, p, c); }
  }

  /** The cuts and the joined parts determine the parts. */
  lemma {:induction false} CutsDetermine(a: seq<Text>, b: seq<Text>, c: Byte)
    requires a != [] && b != [] && Join(a, [c]) == Join(b, [c]) && Cuts(a, c) == Cuts(b, c)
    ensures a == b
    decreases |a|
  {
    assert |Cuts(a, c)| > 0 <==> |a| > 1;
    assert |Cuts(b, c)| > 0 <==> |b| > 1;
    if |a| > 1 {
      var m, n := |a| - 1, |b| - 1;
      assert a == a[..m] + [a[m]] && b == b[..n] + [b[n]];
      JoinAppend(a[..m], a[m], [c]);
      JoinAppend(b[..n], b[n], [c]);
      var front := Cuts(a, c)[|Cuts(a, c)| - 1];
      assert front == |Join(a[..m], [c])| == |Join(b[..n], [c])|;
      assert Join(a[..m], [c]) == Join(a, [c])[..front] && Join(b[..n], [c]) == Join(b, [c])[..front];
      assert a[m] == Join(a, [c])[front + 1..] && b[n] == Join(b, [c])[front + 1..];
      assert Cuts(a[..m], c) == Cuts(a, c)[..|Cuts(a, c)| - 1] && Cuts(b[..n], c) == Cuts(b, c)[..|Cuts(b, c)| - 1];
      CutsDetermine(a[..m], b[..n], c);
    }
  }

  /** The parts found when the search goes on from `last`. */
  predicate Found(parts: seq<Text>, str: Text, delimiter: Text, last: nat)
    requires delimiter != []
  {
    var c := delimiter[0];
    && last <= |str|
    && (if parts == [] then last == 0
        else Join(parts, [c]) + [c] == str[..last] && Cuts(parts, c) + [last - 1] == Occurrences(str, delimiter, last))
    && (forall i :: 0 <= i < |parts| ==> !Occurs(parts[i], delimiter))
    && (parts != [] ==> Occurs(str, delimiter))
  }

  lemma JoinedTo(parts: seq<Text>, p: Text, str: Text, delimiter: Text, last: nat, next: nat)
    requires delimiter != [] && Found(parts, str, delimiter, last) && last <= next <= |str| && p == str[last..next]
    requires forall k :: last <= k < next ==> !OccursAt(str, delimiter, k)
    ensures !Occurs(p, delimiter)
    ensures Join(parts + [p], [delimiter[0]]) == str[..next]
    ensures Cuts(parts + [p], delimiter[0]) == Occurrences(str, delimiter, next)
  {
    var c := delimiter[0];
    NotInside(str, delimiter, last, next);
    JoinPart(parts, str, last, next, c);
    assert parts != [] ==> |Join(parts, [c]) + [c]| == last;
    CutsPart(parts, p, str, delimiter, last, next, c);
  }

  lemma FoundAt(parts: seq<Text>, p: Text, str: Text, delimiter: Text, last: nat, next: nat)
    requires delimiter != [] && Found(parts, str, delimiter, last) && last <= next && OccursAt(str, delimiter, next)
    requires p == str[last..next] && forall k :: last <= k < next ==> !OccursAt(str, delimiter, k)
    ensures Found(parts + [p], str, delimiter, next + 1)
  {
    JoinedTo(parts, p, str, delimiter, last, next);
    assert str[next] == str[next..next + |delimiter|][0];
    assert str[..next] + [delimiter[0]] == str[..next + 1];
    assert Occurrences(str, delimiter, next + 1) == Occurrences(str, delimiter, next) + [next];
  }

  /** The state of the loop: with an empty delimiter nothing is promised but its end. */
  predicate Searching(parts: seq<Text>, str: Text, delimiter: Text, last: nat) {
    if delimiter == [] then last <= |str| + 1 else Found(parts, str, delimiter, last)
  }

  lemma NextFound(parts: seq<Text>, str: Text, delimiter: Text, last: nat, next: nat)
    requires Searching(parts, str, delimiter, last) && Find(str, delimiter, last) == Some(next)
    ensures last <= next <= |str| && Searching(parts + [str[last..next]], str, delimiter, next + 1)
  {
    assert OccursAt(str, delimiter, next);
    if delimiter != [] { FoundAt(parts, str[last..next], str, delimiter, last, next); }
  }

  /** What splitting promises, for a delimiter that is not empty: no part contains the delimiter, and
      since the code goes on one character after its start, the parts joined with its first
      character are the string, cut at every place where the delimiter occurs and nowhere else.
      Joined with the delimiter itself they are the string exactly if it has one character, or
      does not occur. */
  predicate IsSplit(parts: seq<Text>, str: Text, delimiter: Text)
    requires delimiter != []
  {
    && parts != [] && Join(parts, [delimiter[0]]) == str
    && Cuts(parts, delimiter[0]) == Occurrences(str, delimiter, |str| + 1)
    && (forall i :: 0 <= i < |parts| ==> !Occurs(parts[i], delimiter))
    && (Join(parts, delimiter) == str <==> |delimiter| == 1 || !Occurs(str, delimiter))
  }

  lemma LastFound(parts: seq<Text>, str: Text, delimiter: Text, last: nat)
    requires Searching(parts, str, delimiter, last) && Find(str, delimiter, last).None?
    ensures last > |str| <==> delimiter == []
    ensures delimiter != [] ==> IsSplit(parts + [str[last..]], str, delimiter)
  {
    if delimiter == [] {
      assert last <= |str| ==> OccursAt(str, delimiter, last);
    } else {
      var p := str[last..|str|];
      var us := parts + [p];
      assert str[last..] == p;
      JoinedTo(parts, p, str, delimiter, last, |str|);
      assert str[..|str|] == str && !OccursAt(str, delimiter, |str|);
      assert parts == [] ==> !Occurs(str, delimiter);
      assert |us| == |parts| + 1;
      JoinedAgain(us, str, delimiter);
    }
  }

  /** `None` is the `std::out_of_range` that the last `substr` throws, exactly for an empty delimiter. */
  method Split(str: Text, delimiter: Text) returns (result: Option<seq<Text>>)
    ensures result.None? <==> delimiter == []
    ensures result.Some? ==> IsSplit(result.value, str, delimiter)
  {
    var parts: seq<Text> := [];
    var last: nat := 0;
    var next := Find(str, delimiter, last);
    while next.Some?
      invariant Searching(parts, str, delimiter, last) && next == Find(str, delimiter, last)
      invariant last <= |str| + 1
      decreases |str| + 1 - last
    {
      NextFound(parts, str, delimiter, last, next.value);
      var part := str[last..next.value];
      parts := parts + [part];
      last := next.value + 1;
      next := Find(str, delimiter, last);
    }
    LastFound(parts, str, delimiter, last);
    if last > |str| {
      return None;
    }
    parts := parts + [str[last..]];
    result := Some(parts);
  }

  lemma OccursOne(str: Text, c: Byte)
    ensures Occurs(str, [c]) <==> c in str
  {
    if c in str {
      var k :| 0 <= k < |str| && str[k] == c;
      assert OccursAt(str, [c], k);
    }
    if Occurs(str, [c]) {
      var k :| 0 <= k <= |str| && OccursAt(str, [c], k);
      assert str[k] == str[k..k + 1][0];
    }
  }

  lemma FirstPart(a: seq<Text>, c: Byte)
    requires a != [] && !Occurs(a[0], [c])
    ensures var s := Join(a, [c]);
      && |a[0]| <= |s| && s[..|a[0]|] == a[0] && (forall k :: 0 <= k < |a[0]| ==> s[k] != c)
      && (if |a| == 1 then |a[0]| == |s| else |a[0]| < |s| && s[|a[0]|] == c && s[|a[0]| + 1..] == Join(a[1..], [c]))
  {
    OccursOne(a[0], c);
    var s := Join(a, [c]);
    assert s[..|a[0]|] == a[0];
    forall k | 0 <= k < |a[0]| ensures s[k] != c {
      assert s[k] == a[0][k];
    }
  }

  /** With a delimiter of one character there is only one way to split. */
  lemma {:induction false} SplitIsUnique(a: seq<Text>, b: seq<Text>, c: Byte)
    requires a != [] && b != [] && Join(a, [c]) == Join(b, [c])
    requires forall i :: 0 <= i < |a| ==> !Occurs(a[i], [c])
    requires forall i :: 0 <= i < |b| ==> !Occurs(b[i], [c])
    ensures a == b
    decreases |a|
  {
    FirstPart(a, c);
    FirstPart(b, c);
    if |a| > 1 {
      SplitIsUnique(a[1..], b[1..], c);
    }
    assert a == [a[0]] + a[1..] && b == [b[0]] + b[1..];
  }

  // ------------------------------------------------------- escape

  const BACKSLASH: Byte := 92

  function HexDigit(d: nat): Byte
    requires d < 16
  {
    if d < 10 then 48 + d else 87 + d
  }

  function EscapeByte(c: Byte): Text {
    if c == 10 then [BACKSLASH, 110]
    else if c == 13 then [BACKSLASH, 114]
    else if c == 9 then [BACKSLASH, 116]
    else if c == BACKSLASH then [BACKSLASH, BACKSLASH]
    else if c == DOUBLE then [BACKSLASH, DOUBLE]
    else if c < 32 || c > 126 then [BACKSLASH, 120, HexDigit(c / 16), HexDigit(c % 16)]
    else [c]
  }

  /** Which characters are written as they are, and which have a short form: newline, carriage
      return, tab, backslash and double quote. */
  lemma EscapesExactly(c: Byte)
    ensures EscapeByte(c) == [c] <==> 32 <= c <= 126 && c != BACKSLASH && c != DOUBLE
    ensures |EscapeByte(c)| == if EscapeByte(c) == [c] then 1 else if c in [10, 13, 9, BACKSLASH, DOUBLE] then 2 else 4
  {}

  /** The characters that the documentation says are escaped. */
  predicate Promised(c: Byte) {
    c == 10 || c == 13 || c == 9 || c == SINGLE || c == DOUBLE || c < 32 || c > 126
  }

  function Escape(str: Text): Text {
    if str == [] then [] else EscapeByte(str[0]) + Escape(str[1..])
  }

  /** What surrounds a character does not change how it is written. */
  lemma {:induction false} EscapeConcat(a: Text, b: Text)
    ensures Escape(a + b) == Escape(a) + Escape(b)
    decreases |a|
  {
    if a == [] {
      assert a + b == b;
    } else {
      assert (a + b)[1..] == a[1..] + b;
      EscapeConcat(a[1..], b);
    }
  }

  /** The promise is kept for a string exactly if it has no single quote. */
  lemma PromiseKeptIff(str: Text)
    ensures (forall c :: c in str && Promised(c) ==> EscapeByte(c) != [c]) <==> SINGLE !in str
  {
    EscapesExactly(SINGLE);
    if SINGLE in str { assert Promised(SINGLE); }
    forall c | c in str && Promised(c) && c != SINGLE ensures EscapeByte(c) != [c] { EscapesExactly(c); }
  }

  /** A single quote comes out as it is. */
  lemma SingleQuoteStays()
    ensures Promised(SINGLE) && Escape([SINGLE]) == [SINGLE]
  {
    assert EscapeByte(SINGLE) == [SINGLE];
  }

  /** The loop of `escape`, one character further. */
  lemma EscapeNext(out: Text, str: Text, i: nat)
    requires i < |str|
    ensures (out + EscapeByte(str[i])) + Escape(str[i + 1..]) == out + Escape(str[i..])
  {
    assert str[i..][1..] == str[i + 1..];
  }

  lemma EscapeDone(out: Text, str: Text)
    ensures out + Escape(str[|str|..]) == out
  {}

  method EscapeString(str: Text) returns (out: Text)
    ensures out == Escape(str)
  {
    out := [];
    for i := 0 to |str|
      invariant out + Escape(str[i..]) == Escape(str)
    {
      EscapeNext(out, str, i);
      out := out + EscapeByte(str[i]);
    }
    EscapeDone(out, str);
  }

  /** What a reader of the escaped text does; `None` is for text that no string escapes to. */
  datatype Decoded = Bad | Good(text: Text)

  function HexValue(c: Byte): (r: int)
    ensures -1 <= r < 16
  {
    if 48 <= c <= 57 then c - 48 else if 97 <= c <= 102 then c - 87 else -1
  }

  function Then(c: Byte, rest: Decoded): Decoded {
    if rest.Bad? then Bad else Good([c] + rest.text)
  }

  function Unescape(s: Text): Decoded
    decreases |s|
  {
    if s == [] then Good([])
    else if s[0] != BACKSLASH then Then(s[0], Unescape(s[1..]))
    else if |s| < 2 then Bad
    else if s[1] == 110 then Then(10, Unescape(s[2..]))
    else if s[1] == 114 then Then(13, Unescape(s[2..]))
    else if s[1] == 116 then Then(9, Unescape(s[2..]))
    else if s[1] == BACKSLASH then Then(BACKSLASH, Unescape(s[2..]))
    else if s[1] == DOUBLE then Then(DOUBLE, Unescape(s[2..]))
    else if s[1] == 120 && |s| >= 4 && HexValue(s[2]) >= 0 && HexValue(s[3]) >= 0
    then Then(16 * HexValue(s[2]) + HexValue(s[3]), Unescape(s[4..]))
    else Bad
  }

  lemma HexRoundTrip(d: nat)
    requires d < 16
    ensures HexValue(HexDigit(d)) == d
  {}

  lemma UnescapeFour(s: Text, a: nat, b: nat, rest: Text)
    requires a < 16 && b < 16 && s == [BACKSLASH, 120, HexDigit(a), HexDigit(b)] + rest
    ensures Unescape(s) == Then(16 * a + b, Unescape(rest))
  {
    HexRoundTrip(a);
    HexRoundTrip(b);
    assert s[0] == BACKSLASH && s[1] == 120 && s[2] == HexDigit(a) && s[3] == HexDigit(b);
    assert s[4..] == rest;
  }

  lemma UnescapeHex(c: Byte, rest: Text)
    requires |EscapeByte(c)| == 4
    ensures Unescape(EscapeByte(c) + rest) == Then(c, Unescape(rest))
  {
    UnescapeFour(EscapeByte(c) + rest, c / 16, c % 16, rest);
  }

  lemma UnescapeOne(c: Byte, rest: Text)
    ensures Unescape(EscapeByte(c) + rest) == Then(c, Unescape(rest))
  {
    var s := EscapeByte(c) + rest;
    if |EscapeByte(c)| == 1 {
      assert s[1..] == rest;
    } else if |EscapeByte(c)| == 2 {
      assert s[2..] == rest;
    } else {
      UnescapeHex(c, rest);
    }
  }

  /** Reading the escaped text gives the string back. */
  lemma {:induction false} EscapeRoundTrip(str: Text)
    ensures Unescape(Escape(str)) == Good(str)
  {
    if str != [] {
      UnescapeOne(str[0], Escape(str[1..]));
      EscapeRoundTrip(str[1..]);
      assert str == [str[0]] + str[1..];
    }
  }

  lemma EscapeIsInjective(a: Text, b: Text)
    requires Escape(a) == Escape(b)
    ensures a == b
  {
    EscapeRoundTrip(a);
    EscapeRoundTrip(b);
  }

  /** Escaped text is printable ASCII. */
  lemma {:induction false} EscapeIsPrintable(str: Text)
    ensures forall k :: 0 <= k < |Escape(str)| ==> 32 <= Escape(str)[k] <= 126
  {
    if str != [] {
      EscapeIsPrintable(str[1..]);
      var head := EscapeByte(str[0]);
      assert forall k :: 0 <= k < |head| ==> 32 <= head[k] <= 126;
    }
  }
}
