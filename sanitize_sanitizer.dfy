/** The HTML tag stripper of sanitize/sanitizer.go: a byte-level scanner
    that keeps a stack of contexts and copies to its output only the bytes
    it reads while the top context is safe text.

    `Strip` is the scanner written as a function, one loop iteration per
    `Step`; the method `StripTags` is the loop as the source writes it (a
    linked `Stack`, inner `for` loops, the `writeStart`/`writeEnd` cursors
    and a buffer) and is proved to compute `Strip`. */
module Sanitizer {
  import opened Wrappers
  import SanitizeStack

  newtype byte = x: int | 0 <= x < 256

  const LT: byte := 60        // '<'
  const GT: byte := 62        // '>'
  const BANG: byte := 33      // '!'
  const DASH: byte := 45      // '-'
  const SLASH: byte := 47     // '/'
  const STAR: byte := 42      // '*'
  const DQUOTE: byte := 34    // '"'
  const SQUOTE: byte := 39    // '\''
  const BACKSLASH: byte := 92 // '\\'
  const NEWLINE: byte := 10   // '\n'

  datatype Content = UnsafeText | SafeText | Tag | Script | Comment

  datatype Context = Context(content: Content, tagName: string)

  /** The context pushed before scanning starts. */
  const Bottom := Context(SafeText, "")

  const TagContent: map<string, Content> := map[
    "a" := SafeText, "address" := SafeText, "em" := SafeText, "strong" := SafeText,
    "b" := SafeText, "i" := SafeText, "big" := SafeText, "small" := SafeText,
    "sub" := SafeText, "sup" := SafeText, "cite" := SafeText, "code" := SafeText,
    "ol" := SafeText, "ul" := SafeText, "li" := SafeText, "dl" := SafeText,
    "lh" := SafeText, "dt" := SafeText, "dd" := SafeText, "p" := SafeText,
    "th" := SafeText, "td" := SafeText, "pre" := SafeText, "blockquote" := SafeText,
    "h1" := SafeText, "h2" := SafeText, "h3" := SafeText, "h4" := SafeText,
    "h5" := SafeText, "h6" := SafeText, "div" := SafeText, "span" := SafeText,
    "ins" := SafeText, "del" := SafeText,
    "script" := Script]

  /** A missing name reads as Go's zero value, which is unsafe text. */
  function ContentFromTag(tag: string): (c: Content)
    ensures c == Script <==> tag == "script"
    ensures c == UnsafeText <==> tag !in TagContent
    ensures c == SafeText || c == UnsafeText || c == Script
  {
    if tag in TagContent then TagContent[tag] else UnsafeText
  }

  /** `unicode.IsLetter(rune(b))` for a single byte: the ASCII letters and
      the letters of Latin-1. */
  predicate IsLetter(b: byte) {
    (65 <= b <= 90) || (97 <= b <= 122) || b == 0xAA || b == 0xB5 || b == 0xBA ||
    (0xC0 <= b <= 0xD6) || (0xD8 <= b <= 0xF6) || 0xF8 <= b
  }

  /** ASCII lowercasing of a tag name, read as characters. */
  function LowerName(s: seq<byte>): (r: string)
    ensures |r| == |s|
    ensures forall k :: 0 <= k < |s| ==>
              r[k] as int == if 65 <= s[k] <= 90 then s[k] as int + 32 else s[k] as int
  {
    if s == [] then []
    else [(if 65 <= s[0] <= 90 then s[0] as int + 32 else s[0] as int) as char] + LowerName(s[1..])
  }

  /** The end of the run of letters starting at `j`. */
  function LetterRunEnd(bs: seq<byte>, j: nat): (k: nat)
    requires j <= |bs|
    ensures j <= k <= |bs|
    ensures forall m :: j <= m < k ==> IsLetter(bs[m])
    ensures k < |bs| ==> !IsLetter(bs[k])
    decreases |bs| - j
  {
    if j == |bs| || !IsLetter(bs[j]) then j else LetterRunEnd(bs, j + 1)
  }

  /** The first index from `j` on that holds `c`, or `|bs|`. */
  function IndexFrom(bs: seq<byte>, j: nat, c: byte): (k: nat)
    requires j <= |bs|
    ensures j <= k <= |bs|
    ensures forall m :: j <= m < k ==> bs[m] != c
    ensures k < |bs| ==> bs[k] == c
    decreases |bs| - j
  {
    if j == |bs| || bs[j] == c then j else IndexFrom(bs, j + 1, c)
  }

  /** The first index from `j` on where a `*` is followed by `/`,
      pointing at the `/`, or `|bs|`. */
  function CommentEnd(bs: seq<byte>, j: nat): (k: nat)
    requires 1 <= j <= |bs|
    ensures j <= k <= |bs|
    ensures forall m :: j <= m < k ==> !(bs[m] == SLASH && bs[m - 1] == STAR)
    ensures k < |bs| ==> bs[k] == SLASH && bs[k - 1] == STAR
    decreases |bs| - j
  {
    if j == |bs| || (bs[j] == SLASH && bs[j - 1] == STAR) then j else CommentEnd(bs, j + 1)
  }

  /** `m` is a position the quoted-text walk from `j` looks at: it moves
      one byte at a time, two after a backslash, and runs past the end. */
  ghost predicate Visited(bs: seq<byte>, j: nat, m: nat)
    decreases |bs| + 1 - j
  {
    j == m || (j < m && j < |bs| && Visited(bs, if bs[j] == BACKSLASH then j + 2 else j + 1, m))
  }

  /** The end of a script string or regular expression opened by `q`: a
      backslash skips the byte after it. The result can be `|bs| + 1` when
      the input ends in a backslash. */
  function QuotedEnd(bs: seq<byte>, j: nat, q: byte): (k: nat)
    requires j <= |bs| + 1
    ensures j <= k <= |bs| + 1
    ensures Visited(bs, j, k)
    ensures k < |bs| ==> bs[k] == q && bs[k] != BACKSLASH
    ensures forall m :: j <= m < k && m < |bs| && Visited(bs, j, m) && bs[m] != BACKSLASH ==> bs[m] != q
    decreases |bs| + 1 - j
  {
    if j >= |bs| then j
    else if bs[j] == BACKSLASH then QuotedEnd(bs, j + 2, q)
    else if bs[j] == q then j
    else QuotedEnd(bs, j + 1, q)
  }

  /** The index of the first context named `name`, or `|stack|`. */
  function MatchIndex(stack: seq<Context>, name: string): (k: nat)
    ensures k <= |stack|
    ensures forall m :: 0 <= m < k ==> stack[m].tagName != name
    ensures k < |stack| ==> stack[k].tagName == name
  {
    if stack == [] || stack[0].tagName == name then 0 else 1 + MatchIndex(stack[1..], name)
  }

  /** A closing tag pops down to and including the nearest context with
      its name, and changes nothing when there is none. */
  function CloseTag(stack: seq<Context>, name: string): (r: seq<Context>)
  {
    var k := MatchIndex(stack, name);
    if k < |stack| then stack[k + 1..] else stack
  }

  /** `CloseTag` removes a prefix of the stack: the contexts above the
      nearest one named `name` and that one; with no such context, none.
      A non-empty name never removes a bottom context with an empty name. */
  lemma CloseTagPops(stack: seq<Context>, name: string)
    ensures var r := CloseTag(stack, name);
            |r| <= |stack| && r == stack[|stack| - |r|..]
    ensures (forall m :: 0 <= m < |stack| ==> stack[m].tagName != name) ==> CloseTag(stack, name) == stack
    ensures var r := CloseTag(stack, name);
            (exists m :: 0 <= m < |stack| && stack[m].tagName == name) ==>
              |r| < |stack| && stack[|stack| - |r| - 1].tagName == name &&
              forall m :: 0 <= m < |stack| - |r| - 1 ==> stack[m].tagName != name
    ensures var r := CloseTag(stack, name);
            name != "" && |stack| > 0 && stack[|stack| - 1].tagName == "" ==>
              |r| > 0 && r[|r| - 1] == stack[|stack| - 1]
  {
  }

  /** The state of the scan between two iterations of the loop: the index
      `i`, the context stack (top first) and the bytes emitted so far. */
  datatype Scan = Scan(i: nat, stack: seq<Context>, out: seq<byte>)

  /** What holds at the head of every iteration. */
  ghost predicate WellFormed(s: Scan) {
    |s.stack| >= 1 && s.stack[|s.stack| - 1] == Bottom &&
    (s.stack[0].content == Comment ==> s.i >= 2) &&
    (s.stack[0].content == Tag ==> s.i >= 1)
  }

  /** `<!--` starts at `i`. */
  predicate OpensComment(bs: seq<byte>, i: nat)
    requires i < |bs|
  {
    i + 3 < |bs| && bs[i..i + 4] == [LT, BANG, DASH, DASH]
  }

  predicate OpensTag(bs: seq<byte>, i: nat)
    requires i < |bs|
  {
    i + 1 < |bs| && IsLetter(bs[i + 1])
  }

  predicate OpensClosingTag(bs: seq<byte>, i: nat)
    requires i < |bs|
  {
    i + 2 < |bs| && bs[i + 1] == SLASH && IsLetter(bs[i + 2])
  }

  /** A `<` at `i` that text context does not copy. */
  predicate OpensMarkup(bs: seq<byte>, i: nat)
    requires i < |bs|
  {
    bs[i] == LT && (OpensComment(bs, i) || OpensTag(bs, i) || OpensClosingTag(bs, i))
  }

  /** One iteration in safe or unsafe text. */
  function TextStep(bs: seq<byte>, s: Scan): (r: Scan)
    requires WellFormed(s) && s.i < |bs|
    requires s.stack[0].content == SafeText || s.stack[0].content == UnsafeText
  {
    var i := s.i;
    if bs[i] == LT && OpensComment(bs, i) then
      Scan(i + 4, [Context(Comment, "")] + s.stack, s.out)
    else if bs[i] == LT && OpensTag(bs, i) then
      var j := LetterRunEnd(bs, i + 2);
      Scan(j, [Context(Tag, LowerName(bs[i + 1..j]))] + s.stack, s.out)
    else if bs[i] == LT && OpensClosingTag(bs, i) then
      var j := LetterRunEnd(bs, i + 3);
      var name := LowerName(bs[i + 2..j]);
      Scan(IndexFrom(bs, j, GT) + 1, CloseTag(s.stack, name), s.out)
    else if s.stack[0].content == SafeText then
      Scan(i + 1, s.stack, s.out + [bs[i]])
    else
      Scan(i + 1, s.stack, s.out)
  }

  /** One iteration inside `<!-- ... -->`. */
  function CommentStep(bs: seq<byte>, s: Scan): (r: Scan)
    requires WellFormed(s) && s.i < |bs| && s.stack[0].content == Comment
  {
    var i := s.i;
    if bs[i] == GT && bs[i - 2..i] == [DASH, DASH] then Scan(i + 1, s.stack[1..], s.out)
    else Scan(i + 1, s.stack, s.out)
  }

  /** One iteration inside tag markup. */
  function TagStep(bs: seq<byte>, s: Scan): (r: Scan)
    requires WellFormed(s) && s.i < |bs| && s.stack[0].content == Tag
  {
    var i := s.i;
    var ctx := s.stack[0];
    if bs[i] == DQUOTE || bs[i] == SQUOTE then
      Scan(IndexFrom(bs, i + 1, bs[i]) + 1, s.stack, s.out)
    else if bs[i] == GT then
      if bs[i - 1] != SLASH then
        Scan(i + 1, [Context(ContentFromTag(ctx.tagName), ctx.tagName)] + s.stack[1..], s.out)
      else
        Scan(i + 1, s.stack[1..], s.out)
    else
      Scan(i + 1, s.stack, s.out)
  }

  /** One iteration inside a script element. */
  function ScriptStep(bs: seq<byte>, s: Scan): (r: Scan)
    requires WellFormed(s) && s.i < |bs| && s.stack[0].content == Script
  {
    var i := s.i;
    var b := bs[i];
    if i + 1 < |bs| && b == SLASH && bs[i + 1] == SLASH then
      Scan(IndexFrom(bs, i + 2, NEWLINE) + 1, s.stack, s.out)
    else if i + 1 < |bs| && b == SLASH && bs[i + 1] == STAR then
      Scan(CommentEnd(bs, i + 2) + 1, s.stack, s.out)
    else if b == DQUOTE || b == SQUOTE || b == SLASH then
      Scan(QuotedEnd(bs, i + 1, b) + 1, s.stack, s.out)
    else if b == LT && OpensClosingTag(bs, i) then
      var j := LetterRunEnd(bs, i + 3);
      var name := LowerName(bs[i + 2..j]);
      Scan(IndexFrom(bs, j, GT) + 1, if name == s.stack[0].tagName then s.stack[1..] else s.stack, s.out)
    else
      Scan(i + 1, s.stack, s.out)
  }

  /** One iteration of the scanning loop, including its final `i++`. Every
      iteration moves `i` forward, so the scan terminates. */
  function Step(bs: seq<byte>, s: Scan): (r: Scan)
    requires WellFormed(s) && s.i < |bs|
    ensures WellFormed(r)
    ensures r.i > s.i
  {
    match s.stack[0].content
    case SafeText => TextStepAdvances(bs, s); TextStep(bs, s)
    case UnsafeText => TextStepAdvances(bs, s); TextStep(bs, s)
    case Comment => CommentStepAdvances(bs, s); CommentStep(bs, s)
    case Tag => TagStepAdvances(bs, s); TagStep(bs, s)
    case Script => ScriptStepAdvances(bs, s); ScriptStep(bs, s)
  }

  lemma TextStepAdvances(bs: seq<byte>, s: Scan)
    requires WellFormed(s) && s.i < |bs|
    requires s.stack[0].content == SafeText || s.stack[0].content == UnsafeText
    ensures WellFormed(TextStep(bs, s)) && TextStep(bs, s).i > s.i
  {
  }

  lemma CommentStepAdvances(bs: seq<byte>, s: Scan)
    requires WellFormed(s) && s.i < |bs| && s.stack[0].content == Comment
    ensures WellFormed(CommentStep(bs, s)) && CommentStep(bs, s).i > s.i
  {
  }

  lemma TagStepAdvances(bs: seq<byte>, s: Scan)
    requires WellFormed(s) && s.i < |bs| && s.stack[0].content == Tag
    ensures WellFormed(TagStep(bs, s)) && TagStep(bs, s).i > s.i
  {
  }

  lemma ScriptStepAdvances(bs: seq<byte>, s: Scan)
    requires WellFormed(s) && s.i < |bs| && s.stack[0].content == Script
    ensures WellFormed(ScriptStep(bs, s)) && ScriptStep(bs, s).i > s.i
  {
  }

  /** A step emits exactly the byte it reads, and only when the top
      context is safe text and the byte does not open markup; in
      comments, tags and scripts nothing is emitted. */
  lemma StepEmits(bs: seq<byte>, s: Scan)
    requires WellFormed(s) && s.i < |bs|
    ensures var r := Step(bs, s);
            if s.stack[0].content == SafeText && !OpensMarkup(bs, s.i)
            then r.out == s.out + [bs[s.i]] && r.i == s.i + 1
            else r.out == s.out
  {
  }

  /** At the `>` that ends tag markup, a self-closing tag pushes nothing;
      any other tag replaces its tag context by the content its name
      selects, which is unsafe text exactly for the names outside the
      table and a script context exactly for `script`. */
  lemma TagEnds(bs: seq<byte>, s: Scan)
    requires WellFormed(s) && s.i < |bs|
    requires s.stack[0].content == Tag && bs[s.i] == GT
    ensures var r := Step(bs, s);
            var name := s.stack[0].tagName;
            if bs[s.i - 1] == SLASH then r.stack == s.stack[1..]
            else r.stack[1..] == s.stack[1..] && r.stack[0].tagName == name &&
                 (r.stack[0].content == UnsafeText <==> name !in TagContent) &&
                 (r.stack[0].content == Script <==> name == "script")
  {
  }

  /** Iterates `Step` until `i` passes the end of the input. */
  function Run(bs: seq<byte>, s: Scan): (r: Scan)
    requires WellFormed(s)
    ensures WellFormed(r) && r.i >= |bs|
    decreases |bs| - s.i
  {
    if s.i >= |bs| then s else Run(bs, Step(bs, s))
  }

  const Start := Scan(0, [Bottom], [])

  /** The stripped text. */
  function Strip(bs: seq<byte>): seq<byte> {
    Run(bs, Start).out
  }

  /** `<h1>x</h1>`. */
  const HeadingInput: seq<byte> := [LT, 104, 49, GT, 120, LT, SLASH, 104, 49, GT]

  /** The stack while the heading's text is read. */
  const HeadingStack := [Context(UnsafeText, "h"), Bottom]

  /** `<h` opens a tag context named `h`: the digit ends the name. */
  lemma HeadingNameIsH()
    ensures Step(HeadingInput, Start) == Scan(2, [Context(Tag, "h"), Bottom], [])
  {
    var bs := HeadingInput;
    assert LetterRunEnd(bs, 2) == 2;
    assert bs[1..2] == [104] && LowerName(bs[1..2]) == "h";
    assert !OpensComment(bs, 0) && OpensTag(bs, 0);
  }

  /** The `>` replaces it by unsafe text, since `h` is not in the table. */
  lemma HeadingBodyUnsafe()
    ensures Step(HeadingInput, Step(HeadingInput, Scan(2, [Context(Tag, "h"), Bottom], []))) ==
            Scan(4, HeadingStack, [])
  {
    assert "h" !in TagContent;
  }

  /** The `x` is read as unsafe text and not copied. */
  lemma HeadingTextSkipped()
    ensures Step(HeadingInput, Scan(4, HeadingStack, [])) == Scan(5, HeadingStack, [])
  {
    assert !OpensMarkup(HeadingInput, 4);
  }

  /** `</h1>` pops the `h` context. */
  lemma HeadingCloses()
    ensures Step(HeadingInput, Scan(5, HeadingStack, [])) == Scan(10, [Bottom], [])
  {
    var bs := HeadingInput;
    assert LetterRunEnd(bs, 8) == 8 && IndexFrom(bs, 8, GT) == 9;
    assert bs[7..8] == [104] && LowerName(bs[7..8]) == "h";
    assert !OpensComment(bs, 5) && !OpensTag(bs, 5) && OpensClosingTag(bs, 5);
  }

  /** A tag name is the run of letters after `<`, so the heading tags of
      the table are never looked up: `<h1>` opens an element named `h`,
      which reads as unsafe text, and the heading's text is dropped. */
  lemma HeadingTextDropped()
    ensures Strip(HeadingInput) == []
  {
    var bs := HeadingInput;
    var s1 := Scan(2, [Context(Tag, "h"), Bottom], []);
    var s3 := Scan(4, HeadingStack, []);
    var s4 := Scan(5, HeadingStack, []);
    HeadingNameIsH();
    HeadingBodyUnsafe();
    HeadingTextSkipped();
    HeadingCloses();
    calc {
      Run(bs, Start);
      Run(bs, s1);
      Run(bs, Step(bs, s1));
      Run(bs, s3);
      Run(bs, s4);
      Scan(10, [Bottom], []);
    }
  }

  /** `a` is `b` with some bytes left out, the rest in order. */
  predicate IsSubsequence(a: seq<byte>, b: seq<byte>)
    decreases |b|
  {
    if a == [] then true
    else if b == [] then false
    else (a[|a| - 1] == b[|b| - 1] && IsSubsequence(a[..|a| - 1], b[..|b| - 1]))
         || IsSubsequence(a, b[..|b| - 1])
  }

  lemma {:induction false} SubsequenceLength(a: seq<byte>, b: seq<byte>)
    requires IsSubsequence(a, b)
    ensures |a| <= |b|
    decreases |b|
  {
    if a != [] {
      if a[|a| - 1] == b[|b| - 1] && IsSubsequence(a[..|a| - 1], b[..|b| - 1]) {
        SubsequenceLength(a[..|a| - 1], b[..|b| - 1]);
      } else {
        SubsequenceLength(a, b[..|b| - 1]);
      }
    }
  }

  lemma {:induction false} SubsequenceOfLonger(a: seq<byte>, b: seq<byte>, c: seq<byte>)
    requires IsSubsequence(a, b)
    ensures IsSubsequence(a, b + c)
    decreases |c|
  {
    if c == [] {
      assert b + c == b;
    } else if a != [] {
      SubsequenceOfLonger(a, b, c[..|c| - 1]);
      assert (b + c)[..|b + c| - 1] == b + c[..|c| - 1];
      assert IsSubsequence(a, (b + c)[..|b + c| - 1]);
    }
  }

  lemma SubsequenceOfBoth(a: seq<byte>, b: seq<byte>, x: byte)
    requires IsSubsequence(a, b)
    ensures IsSubsequence(a + [x], b + [x])
  {
    assert (a + [x])[..|a|] == a;
    assert (b + [x])[..|b|] == b;
  }

  /** The bytes of `bs` before index `i`, where `i` may pass the end. */
  function Scanned(bs: seq<byte>, i: nat): (r: seq<byte>)
    ensures |r| <= |bs| && r == bs[..|r|]
    ensures i <= |bs| ==> |r| == i
    ensures i >= |bs| ==> r == bs
  {
    if i <= |bs| then bs[..i] else bs
  }

  /** What has been emitted so far is a subsequence of what has been
      scanned, and stays so to the end of the run. */
  lemma {:induction false} RunIsSubsequence(bs: seq<byte>, s: Scan)
    requires WellFormed(s) && IsSubsequence(s.out, Scanned(bs, s.i))
    ensures IsSubsequence(Run(bs, s).out, bs)
    decreases |bs| - s.i
  {
    if s.i < |bs| {
      var r := Step(bs, s);
      StepEmits(bs, s);
      if s.stack[0].content == SafeText && !OpensMarkup(bs, s.i) {
        assert Scanned(bs, r.i) == Scanned(bs, s.i) + [bs[s.i]];
        SubsequenceOfBoth(s.out, Scanned(bs, s.i), bs[s.i]);
      } else {
        var rest := bs[s.i..|Scanned(bs, r.i)|];
        assert Scanned(bs, r.i) == Scanned(bs, s.i) + rest;
        SubsequenceOfLonger(s.out, Scanned(bs, s.i), rest);
      }
      RunIsSubsequence(bs, r);
    }
  }

  /** The stripped text is a subsequence of the input, so never longer. */
  lemma StripIsSubsequence(bs: seq<byte>)
    ensures IsSubsequence(Strip(bs), bs)
    ensures |Strip(bs)| <= |bs|
  {
    RunIsSubsequence(bs, Start);
    SubsequenceLength(Strip(bs), bs);
  }

  /** Without any `<`, the scan stays in the bottom context and copies
      every byte. */
  lemma {:induction false} RunWithoutMarkup(bs: seq<byte>, s: Scan)
    requires forall k :: 0 <= k < |bs| ==> bs[k] != LT
    requires s.stack == [Bottom] && s.i <= |bs| && s.out == bs[..s.i]
    ensures Run(bs, s).out == bs
    decreases |bs| - s.i
  {
    if s.i < |bs| {
      assert bs[..s.i + 1] == bs[..s.i] + [bs[s.i]];
      RunWithoutMarkup(bs, Step(bs, s));
    }
  }

  /** An input containing no `<` is returned unchanged. */
  lemma StripWithoutMarkup(bs: seq<byte>)
    requires forall k :: 0 <= k < |bs| ==> bs[k] != LT
    ensures Strip(bs) == bs
  {
    RunWithoutMarkup(bs, Start);
  }

  /** The inner `for` loop that skips the letters of a tag name. */
  method ScanLetters(bytes: seq<byte>, from: nat) returns (j: nat)
    requires from <= |bytes|
    ensures j == LetterRunEnd(bytes, from)
  {
    j := from;
    while j < |bytes|
      invariant from <= j <= |bytes|
      invariant LetterRunEnd(bytes, j) == LetterRunEnd(bytes, from)
    {
      if !IsLetter(bytes[j]) {
        break;
      }
      j := j + 1;
    }
  }

  /** The inner `for` loops that consume everything up to a given byte. */
  method ScanTo(bytes: seq<byte>, from: nat, c: byte) returns (j: nat)
    requires from <= |bytes|
    ensures j == IndexFrom(bytes, from, c)
  {
    j := from;
    while j < |bytes|
      invariant from <= j <= |bytes|
      invariant IndexFrom(bytes, j, c) == IndexFrom(bytes, from, c)
    {
      if bytes[j] == c {
        break;
      }
      j := j + 1;
    }
  }

  /** The inner loop that finds the end of a script's multi-line comment. */
  method ScanCommentEnd(bytes: seq<byte>, from: nat) returns (j: nat)
    requires 1 <= from <= |bytes|
    ensures j == CommentEnd(bytes, from)
  {
    j := from;
    while j < |bytes|
      invariant from <= j <= |bytes|
      invariant CommentEnd(bytes, j) == CommentEnd(bytes, from)
    {
      if bytes[j] == SLASH && bytes[j - 1] == STAR {
        break;
      }
      j := j + 1;
    }
  }

  /** The inner loop that finds the end of a script string or regular
      expression. */
  method ScanQuoted(bytes: seq<byte>, from: nat, q: byte) returns (j: nat)
    requires from <= |bytes|
    ensures j == QuotedEnd(bytes, from, q)
  {
    j := from;
    while j < |bytes|
      invariant from <= j <= |bytes| + 1
      invariant QuotedEnd(bytes, j, q) == QuotedEnd(bytes, from, q)
    {
      if bytes[j] == BACKSLASH {
        j := j + 1; // the byte after a backslash is skipped
      } else if bytes[j] == q {
        break;
      }
      j := j + 1;
    }
  }

  /** The walk that counts contexts down to the first one named `tagName`,
      followed by `PopMany` of that count when the walk stopped early. */
  method PopToTag(stack: SanitizeStack.Stack<Context>, tagName: string)
    requires stack.Valid()
    modifies stack.Repr
    ensures stack.Valid() && stack.Repr <= old(stack.Repr)
    ensures stack.Contents == CloseTag(old(stack.Contents), tagName)
  {
    var stopped, popThisMany := stack.Walk((value: Context) => value.tagName != tagName);
    if stopped {
      assert popThisMany == MatchIndex(stack.Contents, tagName) + 1;
      var popped := stack.PopMany(popThisMany);
    }
  }

  /** The loop body in text at a `<` that opens a comment, a tag or a
      closing tag; returns the index before the loop's final `i++`. */
  method TextMarkupIteration(stack: SanitizeStack.Stack<Context>, bytes: seq<byte>, i: nat, ghost out: seq<byte>)
    returns (i': nat)
    requires stack.Valid() && i < |bytes| && WellFormed(Scan(i, stack.Contents, out))
    requires stack.Contents[0].content == SafeText || stack.Contents[0].content == UnsafeText
    requires OpensMarkup(bytes, i)
    modifies stack.Repr
    ensures stack.Valid() && fresh(stack.Repr - old(stack.Repr))
    ensures Scan(i' + 1, stack.Contents, out) == TextStep(bytes, Scan(i, old(stack.Contents), out))
  {
    ghost var s := Scan(i, stack.Contents, out);
    var n := |bytes|;
    if i + 3 < n && bytes[i..i + 4] == [LT, BANG, DASH, DASH] {
      // `<!--` opens an HTML comment
      assert TextStep(bytes, s) == Scan(i + 4, [Context(Comment, "")] + s.stack, out);
      var pushed := stack.Push(Context(Comment, ""));
      i' := i + 3;
    } else if i + 1 < n && IsLetter(bytes[i + 1]) {
      // `<` and a letter: a tag name follows
      var j := ScanLetters(bytes, i + 2);
      var tagName := LowerName(bytes[i + 1..j]);
      assert TextStep(bytes, s) == Scan(j, [Context(Tag, tagName)] + s.stack, out);
      var pushed := stack.Push(Context(Tag, tagName));
      i' := j - 1;
    } else {
      // `</`: the end of an element
      var j := ScanLetters(bytes, i + 3);
      var tagName := LowerName(bytes[i + 2..j]);
      // skip the rest of the closing tag
      j := ScanTo(bytes, j, GT);
      assert TextStep(bytes, s) == Scan(j + 1, CloseTag(s.stack, tagName), out);
      PopToTag(stack, tagName);
      i' := j;
    }
  }

  /** Copying one safe-text byte: a gap since the pending run flushes the
      run to the buffer and starts a new one at `i`. The buffer plus the
      pending run grows by exactly `bytes[i]`. */
  method EmitByte(bytes: seq<byte>, i: nat, buffer: seq<byte>, writeStart: nat, writeEnd: nat)
    returns (buffer': seq<byte>, writeStart': nat, writeEnd': nat)
    requires i < |bytes| && writeStart <= writeEnd <= i
    ensures writeStart' <= writeEnd' == i + 1
    ensures buffer' + bytes[writeStart'..writeEnd'] == buffer + bytes[writeStart..writeEnd] + [bytes[i]]
  {
    buffer', writeStart' := buffer, writeStart;
    if writeEnd < i {
      buffer' := buffer + bytes[writeStart..writeEnd];
      writeStart' := i;
    }
    writeEnd' := i + 1;
  }

  /** The loop body when the top context is safe or unsafe text. It
      returns the index before the loop's final `i++`, and the new buffer
      and write cursors. */
  method TextIteration(stack: SanitizeStack.Stack<Context>, bytes: seq<byte>, i: nat,
                       buffer: seq<byte>, writeStart: nat, writeEnd: nat)
    returns (i': nat, buffer': seq<byte>, writeStart': nat, writeEnd': nat)
    requires stack.Valid() && i < |bytes| && writeStart <= writeEnd <= i
    requires WellFormed(Scan(i, stack.Contents, buffer + bytes[writeStart..writeEnd]))
    requires stack.Contents[0].content == SafeText || stack.Contents[0].content == UnsafeText
    modifies stack.Repr
    ensures stack.Valid() && fresh(stack.Repr - old(stack.Repr))
    ensures writeStart' <= writeEnd' <= |bytes| && writeEnd' <= i' + 1
    ensures Scan(i' + 1, stack.Contents, buffer' + bytes[writeStart'..writeEnd'])
         == TextStep(bytes, Scan(i, old(stack.Contents), buffer + bytes[writeStart..writeEnd]))
  {
    var ctx := stack.Peek().value;
    i', buffer', writeStart', writeEnd' := i, buffer, writeStart, writeEnd;
    if OpensMarkup(bytes, i) {
      i' := TextMarkupIteration(stack, bytes, i, buffer + bytes[writeStart..writeEnd]);
    } else if ctx.content == SafeText {
      buffer', writeStart', writeEnd' := EmitByte(bytes, i, buffer, writeStart, writeEnd);
    }
  }

  /** The loop body inside a comment (the index does not jump). */
  method CommentIteration(stack: SanitizeStack.Stack<Context>, bytes: seq<byte>, i: nat, ghost out: seq<byte>)
    requires stack.Valid() && i < |bytes| && WellFormed(Scan(i, stack.Contents, out))
    requires stack.Contents[0].content == Comment
    modifies stack.Repr
    ensures stack.Valid() && fresh(stack.Repr - old(stack.Repr))
    ensures Scan(i + 1, stack.Contents, out) == CommentStep(bytes, Scan(i, old(stack.Contents), out))
  {
    if bytes[i] == GT && bytes[i - 2..i] == [DASH, DASH] {
      var popped := stack.Pop();
    }
  }

  /** The loop body inside tag markup; returns the index before `i++`. */
  method TagIteration(stack: SanitizeStack.Stack<Context>, bytes: seq<byte>, i: nat, ghost out: seq<byte>)
    returns (i': nat)
    requires stack.Valid() && i < |bytes| && WellFormed(Scan(i, stack.Contents, out))
    requires stack.Contents[0].content == Tag
    modifies stack.Repr
    ensures stack.Valid() && fresh(stack.Repr - old(stack.Repr))
    ensures Scan(i' + 1, stack.Contents, out) == TagStep(bytes, Scan(i, old(stack.Contents), out))
  {
    var b := bytes[i];
    var ctx := stack.Peek().value;
    i' := i;
    if b == DQUOTE || b == SQUOTE {
      // a quoted attribute value runs to its matching quote
      i' := ScanTo(bytes, i + 1, b);
    } else if b == GT {
      // the `>` that ends an opening tag
      var popped := stack.Pop();
      if bytes[i - 1] != SLASH {
        // unless the tag ends in `/>`, its content starts
        var pushed := stack.Push(Context(ContentFromTag(ctx.tagName), ctx.tagName));
      }
    }
  }

  /** The loop body inside a script element; returns the index before `i++`. */
  method ScriptIteration(stack: SanitizeStack.Stack<Context>, bytes: seq<byte>, i: nat, ghost out: seq<byte>)
    returns (i': nat)
    requires stack.Valid() && i < |bytes| && WellFormed(Scan(i, stack.Contents, out))
    requires stack.Contents[0].content == Script
    modifies stack.Repr
    ensures stack.Valid() && fresh(stack.Repr - old(stack.Repr))
    ensures Scan(i' + 1, stack.Contents, out) == ScriptStep(bytes, Scan(i, old(stack.Contents), out))
  {
    ghost var s := Scan(i, stack.Contents, out);
    var n := |bytes|;
    var b := bytes[i];
    var ctx := stack.Peek().value;
    i' := i;
    if i + 1 < n && b == SLASH && bytes[i + 1] == SLASH {
      // `//` runs to the end of the line
      i' := ScanTo(bytes, i + 2, NEWLINE);
    } else if i + 1 < n && b == SLASH && bytes[i + 1] == STAR {
      // `/*` runs to the next `*/`
      i' := ScanCommentEnd(bytes, i + 2);
    } else if b == DQUOTE || b == SQUOTE || b == SLASH {
      // a quote or `/` opens quoted text
      i' := ScanQuoted(bytes, i + 1, b);
    } else if i + 2 < n && b == LT && bytes[i + 1] == SLASH && IsLetter(bytes[i + 2]) {
      i' := ScriptCloseTag(stack, bytes, i, out);
    }
  }

  /** A `</` inside a script: only the script's own closing tag pops it. */
  method ScriptCloseTag(stack: SanitizeStack.Stack<Context>, bytes: seq<byte>, i: nat, ghost out: seq<byte>)
    returns (i': nat)
    requires stack.Valid() && i < |bytes| && WellFormed(Scan(i, stack.Contents, out))
    requires stack.Contents[0].content == Script
    requires bytes[i] == LT && OpensClosingTag(bytes, i)
    modifies stack.Repr
    ensures stack.Valid() && fresh(stack.Repr - old(stack.Repr))
    ensures Scan(i' + 1, stack.Contents, out) == ScriptStep(bytes, Scan(i, old(stack.Contents), out))
  {
    ghost var s := Scan(i, stack.Contents, out);
    var ctx := stack.Peek().value;
    // `</`: the end of an element
    var j := ScanLetters(bytes, i + 3);
    var tagName := LowerName(bytes[i + 2..j]);
    j := ScanTo(bytes, j, GT);
    assert ScriptStep(bytes, s) == Scan(j + 1, if tagName == ctx.tagName then s.stack[1..] else s.stack, out);
    if tagName == ctx.tagName {
      var popped := stack.Pop();
    }
    i' := j;
  }

  /** One pass of the loop body, dispatched on the context on top of the
      stack, up to the final `i++`. */
  method Iteration(stack: SanitizeStack.Stack<Context>, bytes: seq<byte>, i: nat,
                   buffer: seq<byte>, writeStart: nat, writeEnd: nat)
    returns (i': nat, buffer': seq<byte>, writeStart': nat, writeEnd': nat)
    requires stack.Valid() && i < |bytes| && writeStart <= writeEnd <= i
    requires WellFormed(Scan(i, stack.Contents, buffer + bytes[writeStart..writeEnd]))
    modifies stack.Repr
    ensures stack.Valid() && fresh(stack.Repr - old(stack.Repr))
    ensures writeStart' <= writeEnd' <= |bytes| && writeEnd' <= i' + 1
    ensures Scan(i' + 1, stack.Contents, buffer' + bytes[writeStart'..writeEnd'])
         == Step(bytes, Scan(i, old(stack.Contents), buffer + bytes[writeStart..writeEnd]))
  {
    ghost var out := buffer + bytes[writeStart..writeEnd];
    var ctx := stack.Peek().value;
    i', buffer', writeStart', writeEnd' := i, buffer, writeStart, writeEnd;
    if ctx.content == SafeText || ctx.content == UnsafeText {
      i', buffer', writeStart', writeEnd' := TextIteration(stack, bytes, i, buffer, writeStart, writeEnd);
    } else if ctx.content == Comment {
      CommentIteration(stack, bytes, i, out);
    } else if ctx.content == Tag {
      i' := TagIteration(stack, bytes, i, out);
    } else {
      i' := ScriptIteration(stack, bytes, i, out);
    }
  }

  /** The source's loop. The invariant ties the live state (index, stack
      object, buffer plus the pending run `bytes[writeStart..writeEnd]`) to
      a state of `Run`, so the result is `Strip(html)`. */
  method StripTags(html: seq<byte>) returns (r: seq<byte>)
    ensures r == Strip(html)
  {
    var stack := new SanitizeStack.Stack<Context>();
    var buffer: seq<byte> := [];

    var pushed := stack.Push(Context(SafeText, ""));

    var i, bytes := 0, html;
    var n := |bytes|;
    var writeStart, writeEnd := 0, 0;
    assert Scan(i, stack.Contents, buffer + bytes[writeStart..writeEnd]) == Start;

    while i < n
      invariant stack.Valid() && fresh(stack.Repr)
      invariant writeStart <= writeEnd <= n && writeEnd <= i
      invariant WellFormed(Scan(i, stack.Contents, buffer + bytes[writeStart..writeEnd]))
      invariant Run(bytes, Scan(i, stack.Contents, buffer + bytes[writeStart..writeEnd])) == Run(bytes, Start)
      decreases n - i
    {
      ghost var s := Scan(i, stack.Contents, buffer + bytes[writeStart..writeEnd]);
      i, buffer, writeStart, writeEnd := Iteration(stack, bytes, i, buffer, writeStart, writeEnd);
      i := i + 1;
      assert Scan(i, stack.Contents, buffer + bytes[writeStart..writeEnd]) == Step(bytes, s);
    }

    buffer := buffer + bytes[writeStart..writeEnd];
    r := buffer;
  }
}
