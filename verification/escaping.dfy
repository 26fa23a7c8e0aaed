/**
 * Double-quote escaping as the handlers apply it before wrapping a script in
 * `powershell -Command "…"`: the JavaScript call `s.replace(/"/g, '\\"')`,
 * which puts a backslash in front of every double quote and touches nothing
 * else (in particular, not backslashes).
 */
module Escaping {
  const Quote: char := '"'
  const Backslash: char := '\\'

  /** Number of double quotes in `s`. */
  function CountQuotes(s: string): nat
  {
    if s == [] then 0 else (if s[0] == Quote then 1 else 0) + CountQuotes(s[1..])
  }

  /** The replacement applied to one character. */
  function EscapeChar(c: char): string
  {
    if c == Quote then [Backslash, Quote] else [c]
  }

  /** `s.replace(/"/g, '\\"')`: each `"` becomes `\"`, all other characters stay, in order. */
  function Escape(s: string): string
  {
    if s == [] then [] else EscapeChar(s[0]) + Escape(s[1..])
  }

  /**
   * The inverse used to state what the escape preserves (it is not part of the
   * program): scanning left to right, a backslash immediately followed by a
   * double quote is dropped and the quote kept; every other character is kept.
   */
  function Unescape(s: string): string
  {
    if s == [] then []
    else if |s| >= 2 && s[0] == Backslash && s[1] == Quote then [Quote] + Unescape(s[2..])
    else [s[0]] + Unescape(s[1..])
  }

  /** Every double quote of `r` is immediately preceded by a backslash. */
  predicate QuotesEscaped(r: string)
  {
    forall i :: 0 <= i < |r| && r[i] == Quote ==> 0 < i && r[i - 1] == Backslash
  }

  /** The escape adds exactly one character per double quote of its input. */
  lemma {:induction false} EscapeLength(s: string)
    ensures |Escape(s)| == |s| + CountQuotes(s)
  {
    if s != [] {
      EscapeLength(s[1..]);
    }
  }

  /** The escape works character by character, so it distributes over concatenation. */
  lemma {:induction false} EscapeAppend(a: string, b: string)
    ensures Escape(a + b) == Escape(a) + Escape(b)
  {
    if a == [] {
      assert a + b == b;
    } else {
      assert (a + b)[0] == a[0];
      assert (a + b)[1..] == a[1..] + b;
      EscapeAppend(a[1..], b);
    }
  }

  /** The escape changes its input exactly when the input holds a double quote. */
  lemma {:induction false} EscapeIdentity(s: string)
    ensures Escape(s) == s <==> CountQuotes(s) == 0
  {
    EscapeLength(s);
    if s != [] && CountQuotes(s) == 0 {
      EscapeIdentity(s[1..]);
    }
  }

  /** The escape neither adds nor removes double quotes; it only inserts backslashes. */
  lemma {:induction false} EscapeKeepsQuoteCount(s: string)
    ensures CountQuotes(Escape(s)) == CountQuotes(s)
  {
    if s != [] {
      EscapeKeepsQuoteCount(s[1..]);
      CountQuotesAppend(EscapeChar(s[0]), Escape(s[1..]));
      if s[0] == Quote {
        assert EscapeChar(s[0])[1..] == [Quote];
      }
    }
  }

  /** A string none of whose characters is a double quote counts none. */
  lemma {:induction false} NoQuotes(s: string)
    requires forall k :: 0 <= k < |s| ==> s[k] != Quote
    ensures CountQuotes(s) == 0
  {
    if s != [] {
      NoQuotes(s[1..]);
    }
  }

  /** A string that counts no double quote has none at any position. */
  lemma {:induction false} QuoteFreeAt(s: string, k: nat)
    requires CountQuotes(s) == 0 && k < |s|
    ensures s[k] != Quote
  {
    if k > 0 {
      QuoteFreeAt(s[1..], k - 1);
    }
  }

  /** A string whose only double quote is its last character counts one. */
  lemma OneClosingQuote(s: string)
    requires s != [] && s[|s| - 1] == Quote
    requires forall k :: 0 <= k < |s| - 1 ==> s[k] != Quote
    ensures CountQuotes(s) == 1
  {
    var init := s[..|s| - 1];
    assert s == init + [Quote];
    NoQuotes(init);
    CountQuotesAppend(init, [Quote]);
  }

  /** Counting distributes over concatenation. */
  lemma {:induction false} CountQuotesAppend(a: string, b: string)
    ensures CountQuotes(a + b) == CountQuotes(a) + CountQuotes(b)
  {
    if a == [] {
      assert a + b == b;
    } else {
      assert (a + b)[0] == a[0];
      assert (a + b)[1..] == a[1..] + b;
      CountQuotesAppend(a[1..], b);
    }
  }

  /** In escaped text no double quote stands bare: each has a backslash right before it. */
  lemma {:induction false} EscapeQuotesEscaped(s: string)
    ensures QuotesEscaped(Escape(s))
  {
    if s != [] {
      var head, tail := EscapeChar(s[0]), Escape(s[1..]);
      EscapeQuotesEscaped(s[1..]);
      assert Escape(s) == head + tail;
      forall i | 0 <= i < |head + tail| && (head + tail)[i] == Quote
        ensures 0 < i && (head + tail)[i - 1] == Backslash
      {
        if i >= |head| {
          assert tail[i - |head|] == Quote;
        }
      }
    }
  }

  /** Escaped text never begins with a double quote. */
  lemma EscapeHead(s: string)
    requires Escape(s) != []
    ensures Escape(s)[0] != Quote
  {
    EscapeQuotesEscaped(s);
  }

  /** Deleting the backslash inserted before each quote gives back the input exactly. */
  lemma {:induction false} UnescapeEscape(s: string)
    ensures Unescape(Escape(s)) == s
  {
    if s != [] {
      var tail := Escape(s[1..]);
      UnescapeEscape(s[1..]);
      if s[0] == Quote {
        assert Escape(s) == [Backslash, Quote] + tail;
        assert Escape(s)[2..] == tail;
      } else {
        assert Escape(s) == [s[0]] + tail;
        assert Escape(s)[1..] == tail;
        if tail != [] {
          EscapeHead(s[1..]);
        }
      }
    }
  }
}
