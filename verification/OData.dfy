/** EscapeODataString and the name filter built from it (internal/frost/client.go), against
    the string-literal rule of OData 4.0 Part 2: URL Conventions, section 5.1.1.6.1: a
    literal is enclosed in single quotes, and two consecutive quotes inside it stand for
    one. */
module OData {
  import opened Canonical

  const QUOTE: char := '\''

  /** strings.ReplaceAll(s, "'", "''"). */
  function EscapeODataString(s: string): string {
    if s == [] then []
    else if s[0] == QUOTE then [QUOTE, QUOTE] + EscapeODataString(s[1..])
    else [s[0]] + EscapeODataString(s[1..])
  }

  function Literal(s: string): string {
    [QUOTE] + EscapeODataString(s) + [QUOTE]
  }

  const NAME_EQ := "name eq "

  function Filter(name: string): string {
    NAME_EQ + Literal(name)
  }

  /** The server's scanner, after the opening quote: the string read so far, then what
      follows the closing quote; None when the literal is not closed. */
  function ScanBody(text: string, read: string): Option<(string, string)>
    decreases |text|
  {
    if text == [] then None
    else if text[0] != QUOTE then ScanBody(text[1..], read + [text[0]])
    else if |text| > 1 && text[1] == QUOTE then ScanBody(text[2..], read + [QUOTE])
    else Some((read, text[1..]))
  }

  function Scan(text: string): Option<(string, string)> {
    if text == [] || text[0] != QUOTE then None else ScanBody(text[1..], [])
  }

  /** `tail` starts with the closing quote. */
  lemma {:induction false} ScanBodyReadsBack(s: string, read: string, tail: string)
    requires tail != [] && tail[0] == QUOTE && (|tail| == 1 || tail[1] != QUOTE)
    ensures ScanBody(EscapeODataString(s) + tail, read) == Some((read + s, tail[1..]))
    decreases |s|
  {
    if s == [] {
      assert EscapeODataString(s) + tail == tail;
      assert read + s == read;
    } else {
      var c := s[0];
      ScanBodyReadsBack(s[1..], read + [c], tail);
      EscapeSplits(s, tail);
      assert read + [c] + s[1..] == read + s;
    }
  }

  lemma EscapeSplits(s: string, tail: string)
    requires s != []
    ensures var text, more := EscapeODataString(s) + tail, EscapeODataString(s[1..]) + tail;
            if s[0] == QUOTE then |text| > 1 && text[0] == text[1] == QUOTE && text[2..] == more
            else text != [] && text[0] == s[0] && text[1..] == more
  {
    var more := EscapeODataString(s[1..]);
    if s[0] == QUOTE {
      Regroup([QUOTE, QUOTE], more, tail);
    } else {
      Regroup([s[0]], more, tail);
    }
  }

  lemma Regroup(head: string, more: string, tail: string)
    ensures (head + more) + tail == head + (more + tail)
    ensures (head + (more + tail))[|head|..] == more + tail
  {
  }

  /** For every string, quotes and all, the server reads back what was escaped and stops
      exactly behind it. */
  lemma LiteralRoundTrip(s: string, rest: string)
    requires rest == [] || rest[0] != QUOTE
    ensures Scan(Literal(s) + rest) == Some((s, rest))
  {
    assert (Literal(s) + rest)[1..] == EscapeODataString(s) + ([QUOTE] + rest);
    ScanBodyReadsBack(s, [], [QUOTE] + rest);
    assert [] + s == s;
  }

  /** Distinct names are asked for with distinct filters. */
  lemma FilterIsInjective(a: string, b: string)
    requires Filter(a) == Filter(b)
    ensures a == b
  {
    assert Filter(a)[|NAME_EQ|..] == Literal(a);
    assert Filter(b)[|NAME_EQ|..] == Literal(b);
    LiteralRoundTrip(a, []);
    LiteralRoundTrip(b, []);
    assert Literal(a) + [] == Literal(a);
    assert Literal(b) + [] == Literal(b);
  }

  /** Unescaped, a name is read back exactly when it has no quote in it. */
  lemma UnescapedRoundTripIff(s: string)
    ensures Scan([QUOTE] + s + [QUOTE]) == Some((s, [])) <==> QUOTE !in s
  {
    UnescapedScan(s, []);
    assert ([QUOTE] + s + [QUOTE])[1..] == s + [QUOTE];
    assert [] + s == s;
  }

  lemma {:induction false} UnescapedScan(s: string, read: string)
    ensures ScanBody(s + [QUOTE], read) == Some((read + s, [])) <==> QUOTE !in s
    ensures ScanBody(s + [QUOTE], read).Some? ==>
              |ScanBody(s + [QUOTE], read).value.0| <= |read| + |s|
              && (QUOTE in s ==> |ScanBody(s + [QUOTE], read).value.0| < |read| + |s|)
    decreases |s|
  {
    var text := s + [QUOTE];
    if s == [] {
      assert text == [QUOTE] && read + s == read;
    } else if s[0] != QUOTE {
      assert text[1..] == s[1..] + [QUOTE];
      UnescapedScan(s[1..], read + [s[0]]);
      assert read + [s[0]] + s[1..] == read + s;
      assert s == [s[0]] + s[1..];
    } else if |s| > 1 && s[1] == QUOTE {
      assert text[2..] == s[2..] + [QUOTE];
      UnescapedScan(s[2..], read + [QUOTE]);
    } else if |s| == 1 {
      assert text == [QUOTE, QUOTE];
      assert text[2..] == [];
    } else {
      assert text[1] != QUOTE;
    }
  }
}
