/**
 * The NOTIFY command text that PostgresWatcher.notify sends, and the rule
 * by which the server reads the payload back: the body of an SQL character
 * string literal, in which a doubled quote stands for one quote
 * (ISO/IEC 9075-2, section 5.3 "<literal>").
 */
module SqlNotify {
  import opened Wrappers

  const Quote: char := '\''

  /** The number of single quotes in s. */
  function QuoteCount(s: string): nat
    decreases |s|
  {
    if s == [] then 0 else (if s[0] == Quote then 1 else 0) + QuoteCount(s[1..])
  }

  /** s with every single quote removed: the characters escaping must keep. */
  function WithoutQuotes(s: string): string
    decreases |s|
  {
    if s == [] then [] else (if s[0] == Quote then [] else [s[0]]) + WithoutQuotes(s[1..])
  }

  /**
   * Every quote of s belongs to a doubled pair, read left to right, so a
   * literal body made of s cannot end early.
   */
  predicate Paired(s: string)
    decreases |s|
  {
    if s == [] then true
    else if s[0] != Quote then Paired(s[1..])
    else |s| >= 2 && s[1] == Quote && Paired(s[2..])
  }

  /** What escaping puts in place of one character. */
  function EscapeChar(c: char): string {
    if c == Quote then [Quote, Quote] else [c]
  }

  /** `message.replace("'", "''")`. */
  function Escape(message: string): (escaped: string)
    ensures |escaped| == |message| + QuoteCount(message)
    decreases |message|
  {
    if message == [] then []
    else EscapeChar(message[0]) + Escape(message[1..])
  }

  lemma {:induction false} QuoteCountConcat(a: string, b: string)
    ensures QuoteCount(a + b) == QuoteCount(a) + QuoteCount(b)
    decreases |a|
  {
    if a == [] {
      assert a + b == b;
    } else {
      QuoteCountConcat(a[1..], b);
      assert (a + b)[1..] == a[1..] + b;
    }
  }

  lemma {:induction false} WithoutQuotesConcat(a: string, b: string)
    ensures WithoutQuotes(a + b) == WithoutQuotes(a) + WithoutQuotes(b)
    decreases |a|
  {
    if a == [] {
      assert a + b == b;
    } else {
      WithoutQuotesConcat(a[1..], b);
      assert (a + b)[1..] == a[1..] + b;
    }
  }

  /** Escaping doubles the number of quotes. */
  lemma {:induction false} EscapeCountsQuotesTwice(message: string)
    ensures QuoteCount(Escape(message)) == 2 * QuoteCount(message)
    decreases |message|
  {
    if message != [] {
      EscapeCountsQuotesTwice(message[1..]);
      var head := EscapeChar(message[0]);
      QuoteCountConcat(head, Escape(message[1..]));
      assert QuoteCount(head) == if message[0] == Quote then 2 else 0;
    }
  }

  /** Escaping keeps every other character, in order. */
  lemma {:induction false} EscapeKeepsOthers(message: string)
    ensures WithoutQuotes(Escape(message)) == WithoutQuotes(message)
    decreases |message|
  {
    if message != [] {
      EscapeKeepsOthers(message[1..]);
      var head := EscapeChar(message[0]);
      WithoutQuotesConcat(head, Escape(message[1..]));
      assert WithoutQuotes(head) == if message[0] == Quote then [] else [message[0]];
    }
  }

  /** Every quote of an escaped text is one of a pair. */
  lemma {:induction false} EscapeIsPaired(message: string)
    ensures Paired(Escape(message))
    decreases |message|
  {
    if message != [] {
      EscapeIsPaired(message[1..]);
      var tail := Escape(message[1..]);
      if message[0] == Quote {
        assert ([Quote, Quote] + tail)[2..] == tail;
      } else {
        assert ([message[0]] + tail)[1..] == tail;
      }
    }
  }

  /**
   * Escaping doubles every quote and nothing else: the other characters
   * stay, in their order, and every quote of the result is one of a pair.
   */
  lemma EscapeDoublesQuotes(message: string)
    ensures QuoteCount(Escape(message)) == 2 * QuoteCount(message)
    ensures WithoutQuotes(Escape(message)) == WithoutQuotes(message)
    ensures Paired(Escape(message))
  {
    EscapeCountsQuotesTwice(message);
    EscapeKeepsOthers(message);
    EscapeIsPaired(message);
  }

  /**
   * The server's reading of a literal body whose opening quote has already
   * been consumed: the value up to the first undoubled quote and the text
   * after that closing quote, or None when the literal is never closed.
   */
  function ReadLiteral(s: string): (r: Option<(string, string)>)
    ensures r.Some? ==> |r.value.1| < |s|
    decreases |s|
  {
    if s == [] then None
    else if s[0] != Quote then
      match ReadLiteral(s[1..])
      case None => None
      case Some((value, rest)) => Some(([s[0]] + value, rest))
    else if |s| >= 2 && s[1] == Quote then
      match ReadLiteral(s[2..])
      case None => None
      case Some((value, rest)) => Some(([Quote] + value, rest))
    else
      Some(([], s[1..]))
  }

  /** A character other than a quote is part of the value. */
  lemma ReadPlainFront(c: char, s: string)
    requires c != Quote
    ensures ReadLiteral([c] + s)
            == match ReadLiteral(s)
               case None => None
               case Some((value, rest)) => Some(([c] + value, rest))
  {
    assert ([c] + s)[1..] == s;
  }

  /** A doubled quote is one quote of the value. */
  lemma ReadDoubledFront(s: string)
    ensures ReadLiteral([Quote, Quote] + s)
            == match ReadLiteral(s)
               case None => None
               case Some((value, rest)) => Some(([Quote] + value, rest))
  {
    assert ([Quote, Quote] + s)[2..] == s;
  }

  /** Escaping a character in front of a text. */
  lemma EscapeCons(c: char, v: string)
    ensures Escape([c] + v) == EscapeChar(c) + Escape(v)
  {
    assert ([c] + v)[1..] == v;
  }

  /** Reading the escape of one character in front of a literal body. */
  lemma ReadFront(c: char, tail: string, value: string, after: string)
    requires ReadLiteral(tail) == Some((value, after))
    ensures ReadLiteral(EscapeChar(c) + tail) == Some(([c] + value, after))
  {
    if c == Quote {
      ReadDoubledFront(tail);
    } else {
      ReadPlainFront(c, tail);
    }
  }

  /** Regrouping the literal body behind one escaped character. */
  lemma LiteralRegroup(head: string, body: string, after: string)
    ensures head + body + [Quote] + after == head + (body + [Quote] + after)
  {
  }

  /**
   * Reading an escaped message followed by a closing quote returns the
   * message and stops exactly at that quote, whatever follows it (unless it
   * is one more quote, which would make the closing quote a doubled one).
   */
  lemma {:induction false} ReadEscaped(message: string, after: string)
    requires after == [] || after[0] != Quote
    ensures ReadLiteral(Escape(message) + [Quote] + after) == Some((message, after))
    decreases |message|
  {
    if message == [] {
      assert Escape(message) + [Quote] + after == [Quote] + after;
      assert ([Quote] + after)[1..] == after;
    } else {
      var c, m := message[0], message[1..];
      assert message == [c] + m;
      EscapeCons(c, m);
      ReadEscaped(m, after);
      ReadFront(c, Escape(m) + [Quote] + after, m, after);
      LiteralRegroup(EscapeChar(c), Escape(m), after);
    }
  }

  /**
   * Every paired text is the escape of exactly the value the server reads
   * from it; together with ReadEscaped, Escape is a bijection between
   * messages and paired texts.
   */
  lemma {:induction false} PairedIsEscaped(s: string, after: string)
    requires Paired(s)
    requires after == [] || after[0] != Quote
    ensures ReadLiteral(s + [Quote] + after).Some?
    ensures Escape(ReadLiteral(s + [Quote] + after).value.0) == s
    decreases |s|, 0
  {
    if s == [] {
      assert s + [Quote] + after == [Quote] + after;
      assert ([Quote] + after)[1..] == after;
    } else {
      var c := s[0];
      var rest := if c == Quote then s[2..] else s[1..];
      assert EscapeChar(c) + rest == s;
      PairedConsIsEscaped(c, rest, after);
    }
  }

  /** The step of PairedIsEscaped: one escaped character in front of a paired text. */
  lemma {:induction false} PairedConsIsEscaped(c: char, rest: string, after: string)
    requires Paired(rest)
    requires after == [] || after[0] != Quote
    ensures ReadLiteral(EscapeChar(c) + rest + [Quote] + after).Some?
    ensures Escape(ReadLiteral(EscapeChar(c) + rest + [Quote] + after).value.0) == EscapeChar(c) + rest
    decreases |rest|, 1
  {
    var t := rest + [Quote] + after;
    PairedIsEscaped(rest, after);
    var r := ReadLiteral(t).value;
    ReadFront(c, t, r.0, r.1);
    EscapeCons(c, r.0);
    LiteralRegroup(EscapeChar(c), rest, after);
  }

  /** The text before the literal in the NOTIFY command for channel. */
  function CommandPrefix(channel: string): string {
    "NOTIFY " + channel + ", '"
  }

  /** `String.format("NOTIFY %s, '%s'", channel, escapedMessage)`. */
  function NotifyCommand(channel: string, message: string): (sql: string)
    ensures |sql| == |CommandPrefix(channel)| + |message| + QuoteCount(message) + 1
  {
    CommandPrefix(channel) + Escape(message) + [Quote]
  }

  /**
   * The command names the channel as given, and the literal the server reads
   * after it is the message itself, closed by the last character.
   */
  lemma NotifyCommandCarriesMessage(channel: string, message: string)
    ensures var sql := NotifyCommand(channel, message);
            var n := |CommandPrefix(channel)|;
            && sql[..n] == "NOTIFY " + channel + ", '"
            && ReadLiteral(sql[n..]) == Some((message, ""))
  {
    var sql := NotifyCommand(channel, message);
    var n := |CommandPrefix(channel)|;
    assert sql[n..] == Escape(message) + [Quote] + "";
    ReadEscaped(message, "");
  }
}
