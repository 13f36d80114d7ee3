/** The library's documented examples and unit tests, plus three scenarios:
    case-insensitivity and per-thread lists, which its documentation states
    in prose, and the cells a first parse fixes, which follows the code
    rather than the documentation. All are replayed against the contracts
    of `Lexical.Context`: each method starts from fresh contexts, so what it
    returns is fixed by those contracts alone. */
module Usage {
  import opened Lexical

  const True := Ok(LexicalBool(true))
  const False := Ok(LexicalBool(false))

  /** `l` is what `s` lowers to, checked one character at a time. */
  lemma LowersTo(s: string, l: string)
    requires |s| == |l| && forall i :: 0 <= i < |s| ==> Ascii.ToLowerChar(s[i]) == l[i]
    ensures Ascii.ToLower(s) == l
  {
  }

  /** The four default truthy words, in a context nobody configured. */
  method DefaultTruthyWords() returns (parsed: seq<Result<LexicalBool, Error>>)
    ensures parsed == [True, True, True, True]
  {
    var ctx := new Context();
    LowersTo("true", "true");
    var a := ctx.FromStr("true");
    assert a == True;
    LowersTo("t", "t");
    var b := ctx.FromStr("t");
    assert b == True;
    LowersTo("1", "1");
    var c := ctx.FromStr("1");
    assert c == True;
    LowersTo("yes", "yes");
    var d := ctx.FromStr("yes");
    assert d == True;
    parsed := [a, b, c, d];
  }

  /** The four default falsey words, in a context nobody configured. */
  method DefaultFalseyWords() returns (parsed: seq<Result<LexicalBool, Error>>)
    ensures parsed == [False, False, False, False]
  {
    var ctx := new Context();
    LowersTo("false", "false");
    var e := ctx.FromStr("false");
    assert e == False;
    LowersTo("f", "f");
    var f := ctx.FromStr("f");
    assert f == False;
    LowersTo("0", "0");
    var g := ctx.FromStr("0");
    assert g == False;
    LowersTo("no", "no");
    var h := ctx.FromStr("no");
    assert h == False;
    parsed := [e, f, g, h];
  }

  /** Default words in other ASCII cases, and two words that are in neither
      default list. */
  method RecasedWords() returns (recased: seq<Result<LexicalBool, Error>>)
    ensures recased == [True, True, False, False, Err(InvalidInput("maybe")), Err(InvalidInput(""))]
  {
    var other := new Context();
    LowersTo("TRUE", "true");
    var u := other.FromStr("TRUE");
    assert u == True;
    LowersTo("tRuE", "true");
    var v := other.FromStr("tRuE");
    assert v == True;
    LowersTo("False", "false");
    var w := other.FromStr("False");
    assert w == False;
    LowersTo("NO", "no");
    var x := other.FromStr("NO");
    assert x == False;
    LowersTo("maybe", "maybe");
    assert "maybe" !in TruthyValues && "maybe" !in FalseyValues;
    var y := other.FromStr("maybe");
    assert y == Err(InvalidInput("maybe"));
    LowersTo("", "");
    assert "" !in TruthyValues && "" !in FalseyValues;
    var z := other.FromStr("");
    assert z == Err(InvalidInput(""));
    recased := [u, v, w, x, y, z];
  }

  /** Both lists replaced before any parse: the second attempt on the
      truthy list fails, and the defaults stop being recognised. */
  method CustomWords() returns (inits: seq<bool>, parsed: seq<Result<LexicalBool, Error>>)
    ensures inits == [true, true, false]
    ensures parsed == [True, True, False, False, Err(InvalidInput("true"))]
  {
    var ctx := new Context();
    var i1 := ctx.InitializeTrueValues(["foo", "bar"]);
    var i2 := ctx.InitializeFalseValues(["baz", "qux"]);
    var i3 := ctx.InitializeTrueValues(["true", "1"]);
    inits := [i1, i2, i3];
    LowersTo("foo", "foo");
    var a := ctx.FromStr("foo");
    assert a == True;
    LowersTo("bar", "bar");
    var b := ctx.FromStr("bar");
    assert b == True;
    LowersTo("baz", "baz");
    var c := ctx.FromStr("baz");
    assert c == False;
    LowersTo("qux", "qux");
    var d := ctx.FromStr("qux");
    assert d == False;
    LowersTo("true", "true");
    var e := ctx.FromStr("true");
    assert e == Err(InvalidInput("true"));
    parsed := [a, b, c, d, e];
  }

  /** A custom truthy list, with the falsey list left to its defaults.
      "YEP" matches the stored "yep"; the stored "YEP" itself can never
      match anything. */
  method CustomTruthy() returns (init: bool, parsed: seq<Result<LexicalBool, Error>>)
    ensures init
    ensures parsed == [True, True, True, False, False, False, False]
  {
    var ctx := new Context();
    init := ctx.InitializeTrueValues(["this is true", "yep", "YEP"]);
    LowersTo("this is true", "this is true");
    var a := ctx.FromStr("this is true");
    assert a == True;
    LowersTo("yep", "yep");
    var b := ctx.FromStr("yep");
    assert b == True;
    LowersTo("YEP", "yep");
    var c := ctx.FromStr("YEP");
    assert c == True;
    LowersTo("false", "false");
    var d := ctx.FromStr("false");
    assert d == False;
    LowersTo("f", "f");
    var e := ctx.FromStr("f");
    assert e == False;
    LowersTo("0", "0");
    var f := ctx.FromStr("0");
    assert f == False;
    LowersTo("no", "no");
    var g := ctx.FromStr("no");
    assert g == False;
    parsed := [a, b, c, d, e, f, g];
  }

  /** A custom falsey list, with the truthy list left to its defaults. */
  method CustomFalsey() returns (init: bool, parsed: seq<Result<LexicalBool, Error>>)
    ensures init
    ensures parsed == [False, False, False, True, True, True, True]
  {
    var ctx := new Context();
    init := ctx.InitializeFalseValues(["this is false", "nope", "NOPE"]);
    LowersTo("this is false", "this is false");
    var a := ctx.FromStr("this is false");
    assert a == False;
    LowersTo("nope", "nope");
    var b := ctx.FromStr("nope");
    assert b == False;
    LowersTo("NOPE", "nope");
    var c := ctx.FromStr("NOPE");
    assert c == False;
    LowersTo("true", "true");
    var d := ctx.FromStr("true");
    assert d == True;
    LowersTo("t", "t");
    var e := ctx.FromStr("t");
    assert e == True;
    LowersTo("1", "1");
    var f := ctx.FromStr("1");
    assert f == True;
    LowersTo("yes", "yes");
    var g := ctx.FromStr("yes");
    assert g == True;
    parsed := [a, b, c, d, e, f, g];
  }

  /** A parse fixes the lists it consulted and only those, although the
      documentation says a first parse fixes both: after "yes" has
      matched the default truthy list, the truthy list can no longer be set
      but the falsey list still can. */
  method LateInitialization() returns (inits: seq<bool>, parsed: seq<Result<LexicalBool, Error>>)
    ensures inits == [false, true]
    ensures parsed == [True, Err(InvalidInput("foo")), False]
  {
    var ctx := new Context();
    LowersTo("yes", "yes");
    var a := ctx.FromStr("yes");
    assert a == True;
    var i1 := ctx.InitializeTrueValues(["foo"]);
    var i2 := ctx.InitializeFalseValues(["nope"]);
    inits := [i1, i2];
    LowersTo("foo", "foo");
    assert "foo" !in TruthyValues;
    var b := ctx.FromStr("foo");
    assert b == Err(InvalidInput("foo"));
    LowersTo("nope", "nope");
    var c := ctx.FromStr("nope");
    assert c == False;
    parsed := [a, b, c];
  }

  /** Two contexts do not see each other's lists. */
  method SeparateContexts() returns (ok: bool, here: Result<LexicalBool, Error>, there: Result<LexicalBool, Error>)
    ensures ok
    ensures here == True
    ensures there == Err(InvalidInput("foo"))
  {
    var mine := new Context();
    var other := new Context();
    ok := mine.InitializeTrueValues(["foo"]);
    LowersTo("foo", "foo");
    here := mine.FromStr("foo");
    assert here == True;
    LowersTo("foo", "foo");
    there := other.FromStr("foo");
    assert there == Err(InvalidInput("foo"));
  }
}
