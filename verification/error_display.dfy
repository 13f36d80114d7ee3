/** The text of `Error`'s `Display`: the rejected input, then the default
    words (truthy then falsey), each quoted as `'word''` and separated by
    ", ". The list is always the defaults, whatever a context installed. */
module ErrorDisplay {
  import opened Lexical

  /** `format!("'{}''", val)`: the doubled closing quote is the library's. */
  function Quote(tok: string): string {
    "'" + tok + "''"
  }

  /** A quoted word is an opening quote, the word itself, and two closing
      quotes; so it is never empty. */
  lemma QuoteShape(tok: string)
    ensures |Quote(tok)| == |tok| + 3
    ensures Quote(tok)[0] == '\'' && Quote(tok)[|tok| + 1..] == "''"
    ensures Quote(tok)[1..|tok| + 1] == tok
  {
  }

  /** The quoted words separated by ", ", with no separator before the
      first or after the last. */
  function JoinQuoted(toks: seq<string>): (r: string)
    ensures |r| == 0 <==> toks == []
  {
    if |toks| == 0 then ""
    else if |toks| == 1 then Quote(toks[0])
    else JoinQuoted(toks[..|toks| - 1]) + ", " + Quote(toks[|toks| - 1])
  }

  /** Every word appears, quoted, somewhere in the joined text. */
  lemma {:induction false} JoinQuotedHasEach(toks: seq<string>, i: nat) returns (k: nat)
    requires i < |toks|
    ensures k + |Quote(toks[i])| <= |JoinQuoted(toks)|
    ensures JoinQuoted(toks)[k..k + |Quote(toks[i])|] == Quote(toks[i])
  {
    var n := |toks|;
    if n == 1 {
      k := 0;
    } else if i == n - 1 {
      k := |JoinQuoted(toks[..n - 1])| + 2;
    } else {
      var prefix := toks[..n - 1];
      assert prefix[i] == toks[i];
      k := JoinQuotedHasEach(prefix, i);
      var j := JoinQuoted(toks);
      assert j == JoinQuoted(prefix) + (", " + Quote(toks[n - 1]));
      assert j[k..k + |Quote(toks[i])|] == JoinQuoted(prefix)[k..k + |Quote(toks[i])|];
    }
  }

  /** The joined text starts with the first word, quoted: there is no
      leading separator. */
  lemma {:induction false} JoinQuotedStartsWithFirst(toks: seq<string>)
    requires toks != []
    ensures |Quote(toks[0])| <= |JoinQuoted(toks)|
    ensures JoinQuoted(toks)[..|Quote(toks[0])|] == Quote(toks[0])
  {
    var n := |toks|;
    if n > 1 {
      var prefix := toks[..n - 1];
      assert prefix[0] == toks[0];
      JoinQuotedStartsWithFirst(prefix);
      var j := JoinQuoted(toks);
      assert j == JoinQuoted(prefix) + (", " + Quote(toks[n - 1]));
    }
  }

  /** The list the message shows: the eight default words, rendered. */
  lemma DefaultsRendering()
    ensures JoinQuoted(TruthyValues + FalseyValues) ==
            "'true'', 't'', '1'', 'yes'', 'false'', 'f'', '0'', 'no''"
  {
    var all := TruthyValues + FalseyValues;
    assert JoinQuoted(all[..1]) == "'true''";
    assert JoinQuoted(all[..2]) == "'true'', 't''" by {
      assert all[..2][..1] == all[..1];
    }
    assert JoinQuoted(all[..3]) == "'true'', 't'', '1''" by {
      assert all[..3][..2] == all[..2];
    }
    assert JoinQuoted(all[..4]) == "'true'', 't'', '1'', 'yes''" by {
      assert all[..4][..3] == all[..3];
    }
    assert JoinQuoted(all[..5]) == "'true'', 't'', '1'', 'yes'', 'false''" by {
      assert all[..5][..4] == all[..4];
    }
    assert JoinQuoted(all[..6]) == "'true'', 't'', '1'', 'yes'', 'false'', 'f''" by {
      assert all[..6][..5] == all[..5];
    }
    assert JoinQuoted(all[..7]) == "'true'', 't'', '1'', 'yes'', 'false'', 'f'', '0''" by {
      assert all[..7][..6] == all[..6];
    }
    assert JoinQuoted(all[..8]) == "'true'', 't'', '1'', 'yes'', 'false'', 'f'', '0'', 'no''" by {
      assert all[..8][..7] == all[..7];
    }
    assert all[..8] == all;
  }

  /** `Display::fmt` for `Error`: the list is built by a fold that adds ", "
      before a word only when the text so far is not empty. */
  method Fmt(e: Error) returns (msg: string)
    ensures msg == "not a boolean: " + e.input + ". only " +
                   "'true'', 't'', '1'', 'yes'', 'false'', 'f'', '0'', 'no''" + " are allowed"
  {
    var allowed := TruthyValues + FalseyValues;
    var acc := "";
    for i := 0 to |allowed|
      invariant acc == JoinQuoted(allowed[..i])
    {
      var b := Quote(allowed[i]);
      if |acc| > 0 {
        acc := acc + ", ";
      }
      acc := acc + b;
      assert allowed[..i + 1][..i] == allowed[..i];
    }
    assert allowed[..|allowed|] == allowed;
    DefaultsRendering();
    assert acc == "'true'', 't'', '1'', 'yes'', 'false'', 'f'', '0'', 'no''";
    msg := "not a boolean: " + e.input + ". only " + acc + " are allowed";
  }
}
