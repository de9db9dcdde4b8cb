/** The emphasis renderer of the client (`ImpText`): the summary text is split on
    the delimiter `*`, and the fragments are shown alternately as plain text (even
    positions) and as emphasized text (odd positions). Pairing is positional only:
    an unclosed delimiter emphasizes everything after it. */
module Emphasis {

  /** The delimiter the prompt asks the AI service to wrap key phrases in. */
  const Delimiter: char := '*'

  /** One rendered fragment: a `<strong>` when `emphasized`, a `<span>` otherwise. */
  datatype Span = Span(emphasized: bool, text: string)

  /** Number of occurrences of `d` in `s`. */
  function Count(s: string, d: char): nat
  {
    if s == [] then 0 else (if s[0] == d then 1 else 0) + Count(s[1..], d)
  }

  /** `s` with every occurrence of `d` removed. */
  function Remove(s: string, d: char): string
  {
    if s == [] then [] else (if s[0] == d then [] else [s[0]]) + Remove(s[1..], d)
  }

  /** The fragments joined back together with `d` between consecutive ones
      (JavaScript's `Array.prototype.join(d)`). */
  function Join(parts: seq<string>, d: char): string
    requires |parts| >= 1
  {
    if |parts| == 1 then parts[0] else parts[0] + [d] + Join(parts[1..], d)
  }

  /** Concatenation of all fragments. */
  function Concat(parts: seq<string>): string
  {
    if parts == [] then [] else parts[0] + Concat(parts[1..])
  }

  /** JavaScript's `s.split(d)` for a one-character separator: the maximal
      delimiter-free pieces between occurrences of `d`, in order. The empty
      string splits into one empty fragment. */
  function Split(s: string, d: char): (parts: seq<string>)
    ensures |parts| == Count(s, d) + 1
    ensures forall i :: 0 <= i < |parts| ==> d !in parts[i]
  {
    if s == [] then [[]]
    else if s[0] == d then [[]] + Split(s[1..], d)
    else
      var rest := Split(s[1..], d);
      [[s[0]] + rest[0]] + rest[1..]
  }

  /** Splitting and then joining with the same delimiter gives back the text. */
  lemma {:induction false} JoinSplit(s: string, d: char)
    ensures Join(Split(s, d), d) == s
  {
    if s == [] {
    } else if s[0] == d {
      var rest := Split(s[1..], d);
      JoinSplit(s[1..], d);
      assert Split(s, d) == [[]] + rest;
      assert ([[]] + rest)[1..] == rest;
    } else {
      var rest := Split(s[1..], d);
      JoinSplit(s[1..], d);
      var parts := [[s[0]] + rest[0]] + rest[1..];
      assert Split(s, d) == parts;
      if |rest| == 1 {
        assert Join(parts, d) == [s[0]] + rest[0];
      } else {
        assert parts[1..] == rest[1..];
        assert Join(rest, d) == rest[0] + [d] + Join(rest[1..], d);
        assert Join(parts, d) == [s[0]] + rest[0] + [d] + Join(rest[1..], d);
      }
      assert [s[0]] + s[1..] == s;
    }
  }

  /** Prefixing delimiter-free text `a` to `rest` only extends the first fragment. */
  lemma {:induction false} SplitFreePrefix(a: string, rest: string, d: char)
    requires d !in a
    ensures Split(a + rest, d) == [a + Split(rest, d)[0]] + Split(rest, d)[1..]
  {
    if a == [] {
      assert a + rest == rest;
      var r := Split(rest, d);
      assert a + r[0] == r[0];
      assert [r[0]] + r[1..] == r;
    } else {
      SplitFreePrefix(a[1..], rest, d);
      assert (a + rest)[0] == a[0];
      assert (a + rest)[1..] == a[1..] + rest;
      assert [a[0]] + (a[1..] + Split(rest, d)[0]) == a + Split(rest, d)[0];
    }
  }

  /** Joining delimiter-free fragments and splitting again gives back the
      fragments: together with `JoinSplit`, `Split` and `Join` are inverse. */
  lemma {:induction false} SplitJoin(parts: seq<string>, d: char)
    requires |parts| >= 1
    requires forall i :: 0 <= i < |parts| ==> d !in parts[i]
    ensures Split(Join(parts, d), d) == parts
  {
    if |parts| == 1 {
      SplitFreePrefix(parts[0], [], d);
      assert parts[0] + [] == parts[0];
    } else {
      var tail := parts[1..];
      SplitJoin(tail, d);
      var joined := Join(tail, d);
      assert Split([d] + joined, d) == [[]] + Split(joined, d) by {
        assert ([d] + joined)[0] == d;
        assert ([d] + joined)[1..] == joined;
      }
      assert parts[0] + [d] + joined == parts[0] + ([d] + joined);
      SplitFreePrefix(parts[0], [d] + joined, d);
      assert parts[0] + [] == parts[0];
      assert [parts[0]] + tail == parts;
    }
  }

  /** Concatenating the fragments removes exactly the delimiters. */
  lemma {:induction false} ConcatSplit(s: string, d: char)
    ensures Concat(Split(s, d)) == Remove(s, d)
  {
    if s == [] {
    } else if s[0] == d {
      ConcatSplit(s[1..], d);
      var rest := Split(s[1..], d);
      assert ([[]] + rest)[1..] == rest;
    } else {
      ConcatSplit(s[1..], d);
      var rest := Split(s[1..], d);
      var parts := [[s[0]] + rest[0]] + rest[1..];
      assert parts[1..] == rest[1..];
      assert Concat(rest) == rest[0] + Concat(rest[1..]);
    }
  }

  /** The spans `ImpText` renders for `text`; a falsy (empty) text renders
      nothing at all. */
  function Render(text: string): (spans: seq<Span>)
    ensures text == [] ==> spans == []
    ensures text != [] ==> |spans| == Count(text, Delimiter) + 1
    ensures forall i :: 0 <= i < |spans| ==> (spans[i].emphasized <==> i % 2 == 1)
    ensures forall i :: 0 <= i < |spans| ==> Delimiter !in spans[i].text
  {
    if text == [] then []
    else
      var parts := Split(text, Delimiter);
      seq(|parts|, i requires 0 <= i < |parts| => Span(i % 2 == 1, parts[i]))
  }

  /** The texts of the spans, in rendering order. */
  function Texts(spans: seq<Span>): (r: seq<string>)
    ensures |r| == |spans|
    ensures forall i :: 0 <= i < |r| ==> r[i] == spans[i].text
  {
    seq(|spans|, i requires 0 <= i < |spans| => spans[i].text)
  }

  /** Rendering keeps every fragment of the split, in order: joining the span
      texts with the delimiter gives back the original text. */
  lemma RenderRoundTrip(text: string)
    requires text != []
    ensures Texts(Render(text)) == Split(text, Delimiter)
    ensures Join(Texts(Render(text)), Delimiter) == text
  {
    assert Texts(Render(text)) == Split(text, Delimiter);
    JoinSplit(text, Delimiter);
  }

  /** What the reader sees as text: the summary with every delimiter dropped. */
  lemma RenderShowsTextWithoutDelimiters(text: string)
    ensures Concat(Texts(Render(text))) == Remove(text, Delimiter)
  {
    if text != [] {
      assert Texts(Render(text)) == Split(text, Delimiter);
      ConcatSplit(text, Delimiter);
    }
  }

  /** The trailing fragment is emphasized exactly when the number of delimiters
      is odd, i.e. when the last delimiter is unclosed. */
  lemma TrailingEmphasisParity(text: string)
    requires text != []
    ensures Render(text)[|Render(text)| - 1].emphasized <==> Count(text, Delimiter) % 2 == 1
  {
  }

  /** The spans for a text given as its fragments. */
  lemma RenderJoined(parts: seq<string>)
    requires |parts| >= 1
    requires forall i :: 0 <= i < |parts| ==> Delimiter !in parts[i]
    requires Join(parts, Delimiter) != []
    ensures |Render(Join(parts, Delimiter))| == |parts|
    ensures forall i :: 0 <= i < |parts| ==> Render(Join(parts, Delimiter))[i] == Span(i % 2 == 1, parts[i])
  {
    SplitJoin(parts, Delimiter);
  }

  /** A balanced summary renders as alternating plain and emphasized spans. */
  lemma BalancedExample(text: string)
    requires text == "A *B* C *D* E"
    ensures Render(text)
         == [Span(false, "A "), Span(true, "B"), Span(false, " C "), Span(true, "D"), Span(false, " E")]
  {
    var parts := ["A ", "B", " C ", "D", " E"];
    assert Join(parts, Delimiter) == text by {
      assert Join(parts[4..], Delimiter) == " E";
      assert Join(parts[3..], Delimiter) == "D* E";
      assert Join(parts[2..], Delimiter) == " C *D* E";
      assert Join(parts[1..], Delimiter) == "B* C *D* E";
    }
    RenderJoined(parts);
  }

  /** An unclosed delimiter emphasizes the trailing fragment. */
  lemma UnclosedExample(text: string)
    requires text == "A *B* C *D"
    ensures Render(text)
         == [Span(false, "A "), Span(true, "B"), Span(false, " C "), Span(true, "D")]
  {
    var parts := ["A ", "B", " C ", "D"];
    assert Join(parts, Delimiter) == text by {
      assert Join(parts[3..], Delimiter) == "D";
      assert Join(parts[2..], Delimiter) == " C *D";
      assert Join(parts[1..], Delimiter) == "B* C *D";
    }
    RenderJoined(parts);
  }
}
